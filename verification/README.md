# NexPress: verified models

This project models the parts of NexPress whose correctness depends on interleavings, on hand-written
parsers, or on invariants that several functions share, and proves what they promise. Each component stands
on its own; a few small modules (strings as UTF-16 units, UTF-8, text search, JSON quoting, subsequences) are
shared.

**Process bootstrap** (`bootstrap*.dfy`). The closures of `createBootstrap` are a transition system. One step is
the code between two awaits, every external call may succeed or fail, and any number of `ensureFor`,
`reloadPlugins` and `shutdown` calls interleave. One rule restricts the order: the call that created a promise
resumes before the other waiters of that promise. The clearing of `pluginsLoadingPromise` by its starter relies
on that rule; `BootstrapOrder` has a run without it in which two loads are in progress. The rollback of a failed
initial load runs outside the promise `shutdown` waits for, and stays outside it here. The ledger of resources
counts the attachment of the CDN purge adapter; calls of the adapter's own shutdown are counted apart. A call
ends as returned or as thrown, and what one that returned has achieved follows from its intent alone.

**Gettext catalogs** (`inline_*.dfy`, `gettext_*.dfy`, `base64url.dfy`, `utf8.dfy`). Protected inline text has a
printer, an imperative parser and a recursive specification; the search for the closing token (a jump, then
brace parity) is proved equal to a plain tokenizer. Ids go through real UTF-8 and base64url arithmetic (section
3 of RFC 3629, section 5 of RFC 4648). Catalogs render to a table of messages and parse back. Apart from the
round trips, the texts the inline parser takes are given by a grammar of spellings, and the catalogs, contexts
and tables that are accepted by conditions on their contents.

**Codex configuration** (`toml_*.dfy`, `codex_*.dfy`). The scanner is written twice, as the loops of the source
and as a function the loops are proved equal to. The managed block is built line by line, with JSON quoting, and
scanned symbolically. Entries of the server are found in every spelling, and no text inside a value is taken for
one.

**Block schemas** (`content_*.dfy`, `block_definitions.dfy`, `block_conditions.dfy`, `object_graph.dfy`,
`serializable.dfy`, `json_*.dfy`, `utf8_order.dfy`, `graph_laws.dfy`, `pattern_patch.dfy`). The checker pushes
into one shared issue list and is proved against a function that returns the list; the issues it lists are those
of rules stated by value. Object graphs have identity, so they may share objects and contain cycles. Patches
overwrite the props of mutable nodes.

**Block registry** (`block_source.dfy`, `block_registry.dfy`, `registry_selection.dfy`). A mutable registry is
proved against the plain log of registrations since the last reset.

**Comments** (`comment_*.dfy`). A list with arbitrary parent links, cyclic ones included, becomes a forest of
mutable nodes.

**Realtime client** (`realtime*.dfy`). The closures of the hook are methods of a class whose state steps like a
pure event-driven machine; theorems are about whole runs of that machine, and say of every timer, of the source
and of the notices held which history leaves them so.

**Headings and markers** (`heading*.dfy`, `config_*.dfy`). Heading ids in the table of contents and in the
renderer, and the marker regions the CLI edits.

Strings are sequences of UTF-16 units. A thrown error is an `Err`, a `None` or an outcome constructor.

Findings:
- Heading ids are not unique in general, although the comment on the entry type says they account for
  collisions. `IdsUniqueExactly` says exactly for which heading texts they are unique, and `NotesExample` is a
  document where they are not.
- Removing a configuration entry undoes adding it unless the list region ends no later than an empty imports
  region begins: the second insertion uses an offset from before the first. `RemoveUndoesAdd` is an equivalence,
  and `ReversedOrderBreaksRemoval` is such a file.
- "Repeated removal is a no-op" (`config-editor.ts:183`) is not always so: a dropped import line may hold a list
  marker, and then the list region moves. `SecondRemoveExactly` is an equivalence, `SecondRemoveIsNoOp` names the
  simple case (neither list marker line is dropped), and `SecondRemoveEditsAgain` has a file of six lines, for
  every entry, where the second removal edits again.
- Notices are delivered as long as no refresh callback throws before it returns a promise. `DeliveryExactly` is an
  equivalence over everything a mounted client may still do; `ThrowIsFinal` and `StuckExactly` say what a throw
  does, and `ThrowLosesNotices` is a run of five events.
- A completed shutdown calls the shutdown of a configured CDN purge adapter even when no read ever attached it:
  `ClosedShutsCdnDown` for every run, and `UnusedCdnIsShutDown` for a run without reads. A rollback only detaches it.
- A catalog round trip needs distinct routes, units in every document, inline texts that agree with their parts,
  and trimmed locales; `CatalogRoundTrip` is an equivalence.

## Model

| member | source | states |
|---|---|---|
| BootstrapSafety.RunInv | packages/next/src/bootstrap.ts:578-984 | the control, registry and resource invariant holds after every run of calls, continuations, promise bodies and shutdown steps |
| BootstrapTheorems.OneLoadAtATime | packages/next/src/bootstrap.ts:742-848 | in every reachable state at most one load body, initial or reload, is in progress |
| BootstrapTheorems.LoadedMeansRegisteredOnce | packages/next/src/bootstrap.ts:684-848 | whenever the loaded flag is set, the host holds exactly the configured plugins and the registry exactly the configured contributions, in order |
| BootstrapTheorems.RegistersFromDefaults | packages/next/src/bootstrap.ts:684-827 | a load body past its teardown has registered no contribution yet, and has loaded a prefix of the configured plugins, from none |
| BootstrapTheorems.ReleasedAtMostOnce | packages/next/src/bootstrap.ts:421-680 | per resource, releases never exceed acquisitions, and at most one acquisition is outstanding, by the one that owns it; for the CDN purge adapter this is about its attachment |
| BootstrapTheorems.DependentsGoFirst | packages/next/src/bootstrap.ts:916-984 | while storage, database or observability is being released, nothing taken down before it is held any more: job producer, then the adapters and the email runtime, then storage, then the database; a rollback keeps the same order for what its read start took |
| BootstrapTheorems.ClosedIsClean | packages/next/src/bootstrap.ts:916-984 | once closed, every acquired resource was released as often as acquired, nothing is installed or loaded, and no promise is pending |
| BootstrapShutdown.CdnShutDownOnce | packages/next/src/bootstrap.ts:951-962 | in every run the CDN purge adapter's shutdown is called exactly once if it is configured and shutdown has got past the search adapter, and otherwise not at all |
| BootstrapShutdown.ClosedShutsCdnDown | packages/next/src/bootstrap.ts:916-984 | once closed, the adapter was shut down exactly when it is configured, and more often than attached exactly when no read attached it |
| BootstrapShutdown.UnusedCdnIsShutDown | packages/next/src/bootstrap.ts:916-984 | the run of shutdown alone closes and shuts down an adapter that was never attached |
| BootstrapTheorems.ClosedIsTerminal | packages/next/src/bootstrap.ts:742-984 | no event enabled after closing, late rollbacks included, changes the lifecycle, a resource or a registry |
| BootstrapTheorems.FailedReadIsRetryable | packages/next/src/bootstrap.ts:578-682 | with no read start in progress and no read state, nothing is held, and the next call whose start succeeds takes each resource of the read start once more |
| BootstrapLiveness.NoDeadlock | packages/next/src/bootstrap.ts:742-984 | while a call has not ended, or shutdown was asked for and is not closed, some internal step is enabled |
| BootstrapLiveness.InternalStepsDecrease | packages/next/src/bootstrap.ts:578-984 | every step that is not a new call lowers a measure |
| BootstrapLiveness.RunsAreBounded | packages/next/src/bootstrap.ts:578-984 | after the last new call a run has at most as many steps as the measure |
| BootstrapOutcomes.ReturnedMeansAchieved | packages/next/src/bootstrap.ts:578-914 | in every reachable state before a shutdown is asked for, a call that returned has the read state; also the loaded plugins unless a reload is under way or failed, for other intents than read; also the email runtime for worker and write; also the job producer for write |
| BootstrapOutcomes.ReturnsOnlyWhileActive | packages/next/src/bootstrap.ts:742-914 | no call returns once a shutdown was asked for |
| BootstrapIntents.ReadyHoldsConfigured | packages/next/src/bootstrap.ts:578-682 | while there is a read state and no shutdown was asked for, exactly the configured resources of the read start are held |
| BootstrapIntents.SuccessfulRunsReturn | packages/next/src/bootstrap.ts:742-914 | in every run where no external call fails and no shutdown is asked for, a call that ended has returned, with all that its intent promises |
| BootstrapModesty.TakesOnlyWhatIsAsked | packages/next/src/bootstrap.ts:742-914 | in every reachable state: without a write call no producer was ever started, without a worker or write call no email runtime configured, and with read calls alone no plugin loaded |
| BootstrapModesty.ReloadReplacesPlugins | packages/next/src/bootstrap.ts:777-868 | a reload returns only after a load of its own, begun with a teardown, was fulfilled |
| BootstrapModesty.ReadReturns | packages/next/src/bootstrap.ts:900-905 | past its first read a read call returns and changes nothing else |
| BootstrapModesty.IntentDecides | packages/next/src/bootstrap.ts:870-914 | once the plugins are there, a plugins call returns; a worker call returns with the email runtime and creates no promise; a write call goes on to await the producer; a failed email runtime fails both |
| BootstrapModesty.JobsMeanProducer | packages/next/src/bootstrap.ts:879-898 | in every run where jobs are on, producer readiness means a running producer until a shutdown is asked for |
| BootstrapOrder.UnorderedResumptionBreaksExclusion | packages/next/src/bootstrap.ts:753-775 | without the starter-first order there is a run with two load bodies in progress |
| InlineCodec.TokensAreCanonical | packages/gettext/src/format.ts:344-358 | the token decoder accepts exactly the encodings of well-formed values of 1 to 256 units, and re-encoding gives the token back |
| InlineCodec.FindUnescapedClose | packages/gettext/src/format.ts:328-342 | jumping to candidates and checking brace parity finds what a left-to-right tokenizer finds |
| InlineCodec.CloseFromIsParity | packages/gettext/src/format.ts:328-342 | the tokenizer's result is unescaped, and no unescaped close stands before it |
| InlineCodec.Unescape | packages/gettext/src/format.ts:360-374 | the unescaping loop computes the recursive definition, the nested-token error included |
| InlineCodec.ParseProtectedInline | packages/gettext/src/format.ts:283-326 | the parsing loop computes the recursive parser, errors included |
| InlineRoundTrip.RoundTrip | packages/gettext/src/format.ts:272-374 | parsing the rendering of a part list gives the list back if and only if it is not empty and every id and ctype is a valid token value |
| InlineRoundTrip.ParsedAreValid | packages/gettext/src/format.ts:283-358 | whatever is parsed has valid ids and ctypes |
| InlineGrammar.UnescapeExactly | packages/gettext/src/format.ts:360-374 | group text is taken exactly when no token starts in it behind an even number of braces; every second brace of a run is dropped and all else kept |
| InlineGrammar.ParsedExactly | packages/gettext/src/format.ts:283-374 | the parser gives a part list exactly for the texts that spell it part by part, canonical or not, so no text spells two lists |
| Base64Url.DecodeEncode | packages/gettext/src/format.ts:344-354 | decoding the base64url digits of a byte string gives it back |
| Utf8.DecodeEncode | packages/gettext/src/format.ts:344-354 | decoding the UTF-8 bytes of a well-formed string gives it back |
| Utf8.DecodeWellFormed | packages/gettext/src/format.ts:348-358 | decoding arbitrary bytes gives a well-formed string |
| GettextContext.ContextRoundTrip | packages/gettext/src/format.ts:182-231 | a context that rendered parses back to its descriptor |
| GettextContext.ContextsAreDistinct | packages/gettext/src/format.ts:182-197 | different descriptors never render to the same context |
| GettextRules.ParsedContextExactly | packages/gettext/src/format.ts:199-231 | a context is read exactly when it is the one encoding of a well-formed text that the reader takes, within the limits |
| GettextRules.RenderedExactly | packages/gettext/src/format.ts:30-88 | a catalog is rendered exactly when it has documents of one pair of different locales, every unit is within the limits with inline sides of one shape, and no two units agree in route, id and form; the table has their rows in order |
| GettextRules.HeaderExactly | packages/gettext/src/format.ts:402-409 | a header name is answered, trimmed, by the first header of that spelling, else by the first with the same letters in any case, else by nothing |
| GettextLaws.MessageIsRead | packages/gettext/src/format.ts:233-270 | a message is taken exactly when its context matches, it is not plural and its inline texts parse to one shape; an inline message without translation has the places of its source and empty texts; a plain one keeps both texts |
| GettextLaws.RowsSay | packages/gettext/src/format.ts:130-148 | under one context, unit i says what message i says |
| GettextLaws.TableIsRead | packages/gettext/src/format.ts:91-152 | a table is taken exactly when its headers, every group and the unit count are good, and every route then has the units of its messages in the order of the table |
| GettextCatalog.RenderGettext | packages/gettext/src/format.ts:30-88 | the rendering loops with their set of seen contexts compute the functional rendering, every error included |
| GettextCatalog.FileUnit | packages/gettext/src/format.ts:138-147 | a unit joins the document of its route, or opens one at the end |
| GettextCatalog.ParseGroup | packages/gettext/src/format.ts:130-148 | the messages of one context are counted, checked and filed as the specification says |
| GettextCatalog.ParseGettext | packages/gettext/src/format.ts:91-152 | the parsing loops compute the functional parser, header, context, unit and limit errors included |
| GettextRoundTrip.HeadersBack | packages/gettext/src/format.ts:402-409 | the header search, exact name first and then any case, finds the three rendered headers |
| GettextRoundTrip.ParsedIsCanonical | packages/gettext/src/format.ts:91-152 | every catalog the parser returns has distinct routes, a unit in each document, inline units that agree with their parts, trimmed locales and at most 100000 units |
| GettextRoundTrip.CatalogRoundTrip | packages/gettext/src/format.ts:30-152 | parsing a rendered catalog gives it back, documents and units in order, if and only if it has those properties |
| JsonText.QuoteInjective | packages/gettext/src/format.ts:192-192 | a JSON string literal can be read back in one way only, whatever follows it |
| TomlScan.StringAt | packages/cli-nexpress/src/agent-connect.ts:226-267 | the string loop (single, multiline, escapes, extra closing quotes) computes its recursive definition |
| TomlScan.KeyPathAt | packages/cli-nexpress/src/agent-connect.ts:268-284 | the key path loop computes its recursive definition |
| TomlScan.ValueAt | packages/cli-nexpress/src/agent-connect.ts:315-335 | the value loop with its bracket stack computes its recursive definition |
| TomlScan.EntryAt | packages/cli-nexpress/src/agent-connect.ts:298-336 | one header or key with its value: malformed, conflicting, or passed |
| TomlScan.CodexHasUnmanagedEntry | packages/cli-nexpress/src/agent-connect.ts:212-339 | the whole scanner computes the recursive scan |
| TomlExtend.SkipValueExtends | packages/cli-nexpress/src/agent-connect.ts:315-335 | text added after a newline leaves a complete value as it was, or ends it at that newline |
| TomlExtend.ScanExtends | packages/cli-nexpress/src/agent-connect.ts:287-339 | when a text scans clear, the scan of any text that continues it after a newline reaches the new part at the head of a line |
| TomlValues.ValueIsPassed | packages/cli-nexpress/src/agent-connect.ts:315-335 | a value of strings, comments, line breaks and nested brackets is passed up to its end, whatever its strings and comments hold |
| TomlValues.ValueHidesText | packages/cli-nexpress/src/agent-connect.ts:287-336 | the scan goes on behind such a value: no text in it, not even one that looks like a header of the server, is taken for an entry |
| TomlValues.MismatchIsRefused | packages/cli-nexpress/src/agent-connect.ts:327-333 | a bracket closed by one of the other kind is refused, wherever it stands in a value |
| TomlValues.UnclosedIsRefused | packages/cli-nexpress/src/agent-connect.ts:315-335 | a bracket that is never closed is refused |
| CodexBlock.QuotedReads | packages/cli-nexpress/src/agent-connect.ts:226-267 | the scanner reads a JSON-quoted string to its end, for every content |
| CodexKeys.UnescapeInside | packages/cli-nexpress/src/agent-connect.ts:242-260 | decoding the escapes of a JSON-quoted text gives the text back, exactly when it is well-formed |
| CodexKeys.QuotedKeyIsRead | packages/cli-nexpress/src/agent-connect.ts:268-284 | a key spelled in double quotes is read as the key itself |
| CodexKeys.LongEscapeIsRead | packages/cli-nexpress/src/agent-connect.ts:242-260 | the four- and eight-digit escapes give their code point, in either case of each digit, and are refused for surrogates and numbers past the last |
| CodexDetect.SpelledPath | packages/cli-nexpress/src/agent-connect.ts:268-284 | a key path is read as its names, bare, double or single quoted, with any blanks between |
| CodexDetect.HeaderIsFound | packages/cli-nexpress/src/agent-connect.ts:285-311 | after any text that scans clear, a table or array-of-tables header of the server, or an array of tables of all servers, is a conflict, however it is spelled |
| CodexDetect.KeyAfterHeaderIsFound | packages/cli-nexpress/src/agent-connect.ts:285-316 | so is a key that completes the path of the table in force |
| CodexDetect.TopLevelKeyIsFound | packages/cli-nexpress/src/agent-connect.ts:285-316 | so is a dotted key of the server, or an inline table of all servers, before any header |
| CodexBlock.ScanLine | packages/cli-nexpress/src/agent-connect.ts:287-336 | the scanner passes any comment, header, assignment or empty line of a block, and only a start marker or a header changes its state |
| CodexAppend.ScanBlock | packages/mcp/src/client-connect.ts:157-195 | the scanner passes the block of a plan when it is the managed one, or for another server |
| CodexAppend.MarkersInBlock | packages/mcp/src/client-connect.ts:166-167 | inside a block a marker of any server stands only where that server's own marker line stands |
| CodexText.StdioBlock | packages/mcp/src/client-connect.ts:157-195 | the block of a stdio connection, line by line |
| CodexText.HttpBlock | packages/mcp/src/client-connect.ts:157-195 | the block of an HTTP connection, line by line |
| CodexText.ValueReadsBack | packages/mcp/src/client-connect.ts:157-195 | the scanner reads every assigned text back as the plan's own value |
| CodexText.AppendedExactly | packages/cli-nexpress/src/agent-connect.ts:376-377 | the block stands after an empty line, or at the top of an empty file, and ends the file with a line break |
| CodexTheorems.MarkersInAppended | packages/cli-nexpress/src/agent-connect.ts:341-378 | the markers of the appended text are those of the old text and, for the same server, the two new ones |
| CodexTheorems.AppendThenRecognise | packages/cli-nexpress/src/agent-connect.ts:341-378 | when a run appends, the old text is a prefix of the new one, which ends in the block, and a second run returns the same content unchanged |
| CodexDetect.WrittenExactly | packages/cli-nexpress/src/agent-connect.ts:341-378 | a run appends exactly when no marker of the server stands in the text and it scans clear, recognises exactly when the block of the plan stands there once and the rest scans clear, and refuses an entry in either case |
| CodexDetect.ExistingEntryIsRefused | packages/cli-nexpress/src/agent-connect.ts:341-378 | a server with an entry and no marker is refused, whatever plan is asked for |
| CodexDetect.EntryBesideBlockIsRefused | packages/cli-nexpress/src/agent-connect.ts:341-378 | an entry beside the recognised block of the server is refused |
| CodexTheorems.RecognisedStays | packages/cli-nexpress/src/agent-connect.ts:341-378 | a recognised server stays recognised when another server's block is appended |
| CodexTheorems.AppendsAreIndependent | packages/cli-nexpress/src/agent-connect.ts:341-378 | two servers that could each be added first can be added one after the other |
| CodexTheorems.ConnectedStaysConnected | packages/cli-nexpress/src/agent-connect.ts:341-378 | through any sequence of later connections of other servers a recognised server stays recognised, and text only grows |
| ContentCheck.AnalyzeFieldValue | packages/blocks/src/content-contract.ts:90-213 | pushes exactly the issues of one field value, after the issues already listed |
| ContentCheck.AnalyzePropSchema | packages/blocks/src/content-contract.ts:215-239 | pushes the unknown props, then the issues of every field |
| ContentCheck.AnalyzeBlock | packages/blocks/src/content-contract.ts:275-349 | pushes the issues of a block and, in order, of its whole subtree |
| ContentReports.FieldReports | packages/blocks/src/content-contract.ts:90-213 | a field is reported as missing or invalid at its own path exactly when it is shown and its value, or default, is empty though required, or outside its kind: type, number bounds, options, pattern |
| ContentReports.SchemaReports | packages/blocks/src/content-contract.ts:215-239 | a prop is reported as missing, invalid or unknown exactly when some field of its name is, or no field has the name |
| ContentReports.ItemReports | packages/blocks/src/content-contract.ts:174-195 | every item of a list is checked: one that is no record is reported, and the issues of a record are issues of the whole |
| ContentReports.NestedReports | packages/blocks/src/content-contract.ts:174-239 | the issues of every nested props object, at any depth, are issues of the outermost one |
| ContentReports.DescendantReports | packages/blocks/src/content-contract.ts:275-349 | the issues of every block of a tree, at its path, are issues of the root |
| ContentReports.BlockReports | packages/blocks/src/content-contract.ts:275-349 | unknown types, unexpected, too few and too many children are reported exactly past their bounds |
| ContentReports.ChildTypeReports | packages/blocks/src/content-contract.ts:329-343 | a child is reported as disallowed exactly when its parent lists types and this is none of them |
| ContentTheorems.SchemaShrinks | packages/blocks/src/block-contract.ts:583-596 | the issues of a schema are a subsequence of those of the schema without conditions, at every nesting depth |
| ContentTheorems.SchemaAnywhere | packages/blocks/src/content-contract.ts:215-239 | the codes a schema reports do not depend on where the props stand |
| ContentTheorems.ForgettingKeepsAccepted | packages/blocks/src/content-contract.ts:275-362 | without some definition, the errors of a block tree are a subsequence of the errors with it |
| BlockDefinitions.ConditionsCanBeMet | packages/blocks/src/block-contract.ts:531-613 | in an accepted definition, at every depth, the props a field's condition list asks for meet all its conditions at once, are known, and raise no issue but missing required props |
| BlockDefinitions.ValidateConditions | packages/blocks/src/block-contract.ts:604-613 | the loop accepts exactly the condition lists with distinct names of other fields and values those fields take |
| BlockConditions.ConditionsAcceptedExactly | packages/blocks/src/block-contract.ts:531-613 | a condition list is accepted exactly when its names are distinct and each condition names another scalar field and a value the content checker itself tolerates there |
| BlockConditions.VisibilityIgnoresOwnValue | packages/blocks/src/block-contract.ts:598-613 | in an accepted definition, at every depth, whether a field is shown does not depend on its own value |
| BlockDefinitions.ValidateSchemaSemantics | packages/blocks/src/block-contract.ts:598-646 | the loop accepts exactly the schemas whose conditions and defaults are sound |
| BlockDefinitions.ValidatePropSchema | packages/blocks/src/block-contract.ts:648-688 | the recursive procedure accepts exactly the schemas within the bounds, with distinct names and sound semantics at every depth |
| BlockDefinitions.DefaultsAreSound | packages/blocks/src/block-contract.ts:616-631 | in an accepted definition, at every depth, a default standing in for an absent prop raises no issue but a missing required prop |
| BlockDefinitions.DefaultPropsAreSound | packages/blocks/src/block-contract.ts:788-794 | with conditions back in place, an accepted definition's default props raise no issue but missing required props |
| BlockDefinitions.ItemDefaultsAreSound | packages/blocks/src/block-contract.ts:633-643 | an array item made from an accepted item default raises no issue but missing required props, wherever it stands |
| Serializable.HasUnsafeText | packages/blocks/src/block-contract.ts:119-132 | the loop finds exactly the texts with a NUL or a lone surrogate |
| Serializable.Walk.Validate | packages/blocks/src/block-contract.ts:263-361 | the walk's verdict and counter are those of the specification, and the active set is as before on every exit |
| Serializable.AcceptanceIsExact | packages/blocks/src/block-contract.ts:263-361 | a value is accepted if and only if its tree is within the limits and has at most 20000 positions; the counter then equals their number |
| Serializable.AcceptedIsAcyclic | packages/blocks/src/block-contract.ts:263-361 | no path through an accepted value repeats an object or is longer than the depth limit |
| GraphLaws.AcceptedByPaths | packages/blocks/src/block-contract.ts:263-361 | an object is accepted exactly when every path from it has at most 65 objects and ends at one of plain data, and its tree has at most 20000 positions |
| ObjectGraph.CycleNotJudged | packages/blocks/src/block-contract.ts:297-303 | a bounded judgement that passes from objects to what they refer to fails on every cycle |
| JsonBytes.SizeIsByteLength | packages/blocks/src/pattern-overrides.ts:29-87 | the piecewise count equals the UTF-8 length of the JSON text |
| JsonClone.Cloner.VisitValue | packages/blocks/src/pattern-overrides.ts:38-94 | the walk that mutates counters and ancestors computes the specification |
| JsonClone.CloneIsExact | packages/blocks/src/pattern-overrides.ts:25-98 | the walk returns the tree of the value with the exact byte count, and refuses, among values within the other bounds, exactly those with over 100000 nodes or over 4 MiB of JSON text |
| GraphLaws.CopiedByPaths | packages/blocks/src/pattern-overrides.ts:25-98 | an object has a JSON tree exactly when every path from it has at most 17 objects and ends at one of plain data within the limits on texts, keys and entries |
| GraphLaws.CopyMirrors | packages/blocks/src/pattern-overrides.ts:25-98 | the tree says what the value says, entry for entry |
| Utf8Order.CompareUtf8 | packages/blocks/src/pattern-overrides.ts:113-120 | the sign of the byte comparison is the code point order, for every pair of strings |
| Utf8Order.OrderIsTotal | packages/blocks/src/pattern-overrides.ts:113-120 | on well-formed strings the order is antisymmetric, transitive, and zero only on equal strings |
| PatternPatch.Collect | packages/blocks/src/pattern-overrides.ts:207-214 | the recursive collection fills the id map in document order |
| PatternPatch.NeighboursSuffice | packages/blocks/src/pattern-overrides.ts:215-221 | comparing neighbours makes the whole patch list strictly sorted, so no id occurs twice |
| PatternPatch.ApplyPatches | packages/blocks/src/pattern-overrides.ts:215-227 | accepts exactly the ordered lists of identifiers that name blocks, and then leaves the tree patched by the pure tree map |
| PatternPatch.PatchKeepsEverythingElse | packages/blocks/src/pattern-overrides.ts:181-227 | at every path, ids, types, layout and child counts are unchanged, and props change only where patched |
| BlockSource.ActiveExactly | packages/blocks/src/source.ts:32-107 | a source is inactive only if it names a theme that is not the site's, or a plugin the site has not enabled |
| BlockSource.SourceKeyExactly | packages/blocks/src/registry.ts:86-88 | two sources are filed under one key only when they are the same, or one is absent and the other is "core" |
| BlockRegistry.KeptIsDistinct | packages/blocks/src/registry.ts:90-100 | no candidate list holds two entries of one source key |
| BlockRegistry.CandidatesSuffice | packages/blocks/src/registry.ts:90-100 | the last passing candidate is the last passing registration, for any test of the source key |
| BlockRegistry.DropSource | packages/blocks/src/registry.ts:93-96 | search and splice remove the first entry of a source key |
| BlockRegistry.SharedRegistry.Store | packages/blocks/src/registry.ts:90-100 | storing keeps the maps equal to the reading of the log with the new registration |
| BlockRegistry.SharedRegistry.Reset | packages/blocks/src/registry.ts:190-194 | after a reset the log is the default blocks |
| BlockRegistry.SharedRegistry.Get | packages/blocks/src/registry.ts:110-112 | the global view is the last registration of the type |
| BlockRegistry.SharedRegistry.GetForActiveSources | packages/blocks/src/source.ts:138-146 | the lookup for a site is the last registration of the type since the reset whose source is active |
| RegistrySelection.SelectBlockCandidates | packages/blocks/src/source.ts:125-135 | the single pass selects the last active candidate of every type, in order of first appearance |
| RegistrySelection.SelectPatternCandidates | packages/blocks/src/source.ts:181-208 | grouping and searching from the end selects the last usable candidate of every id, in order of first appearance |
| RegistrySelection.FlatSelectionIsLogSelection | packages/blocks/src/source.ts:115-123 | selecting from the flattened candidate lists gives, type for type, the last active registration of the log |
| RegistrySelection.GetRegisteredForActiveSources | packages/blocks/src/source.ts:115-123 | flattening the registry's own candidate lists and selecting from them gives, in order of first registration, the last registration of each type whose source is active |
| CommentForest.ParentCycle | packages/next/src/comments-model.ts:10-22 | the walk with its visited set ends, and says whether the links meet a visited id |
| CommentForest.BuildCommentTree | packages/next/src/comments-model.ts:31-54 | roots, child lists and detached marks of the nodes are those of the specification, for every list |
| CommentTheorems.DetachedExactly | packages/next/src/comments-model.ts:31-54 | the detached roots are exactly the comments whose parent is absent or whose chain of links never ends |
| CommentTheorems.ForestHoldsEachCommentOnce | packages/next/src/comments-model.ts:31-54 | every comment is reached from the roots by exactly one path, and no path repeats a comment |
| CommentTheorems.OrderIsKept | packages/next/src/comments-model.ts:24-30 | roots and siblings are subsequences of the input |
| CommentTheorems.Places | packages/next/src/comments-model.ts:40-52 | a comment is a root exactly when it is not attached, and otherwise a child of its parent and of no other |
| Realtime.Client.DispatchNotice | packages/next/src/community-realtime.ts:56-59 | a notice replaces the pending one and arms the timer, unless disposed |
| Realtime.Client.OnDebounceTimer | packages/next/src/community-realtime.ts:59-79 | the timer starts a refresh, or queues the notice behind a running one |
| Realtime.Client.OnRefreshSettled | packages/next/src/community-realtime.ts:70-77 | a settled refresh is followed by the queued one, or the loop ends |
| Realtime.Client.ConnectNow | packages/next/src/community-realtime.ts:107-123 | connecting opens a new source, or falls back to polling and a reconnect |
| Realtime.Client.OnMessage | packages/next/src/community-realtime.ts:129-136 | messages of the current source are dispatched; one that does not parse restarts with polling |
| Realtime.Client.OnError | packages/next/src/community-realtime.ts:137-146 | an error arms polling, and a closed source is dropped and reconnected |
| Realtime.Client.Cleanup | packages/next/src/community-realtime.ts:151-157 | disposal disarms every timer |
| RealtimeTheorems.NeverWithoutUpdates | packages/next/src/community-realtime.ts:82-157 | while mounted without a source, polling is armed, and a reconnect too where sources are supported |
| RealtimeHistory.PollingExactly | packages/next/src/community-realtime.ts:82-157 | after every run, polling is armed exactly when a failure, or a connect without event sources, armed it and the current source has not opened since |
| RealtimeHistory.OpenEndsPolling | packages/next/src/community-realtime.ts:124-128 | after the current source opens there is no polling until one of its failures or a failed connect |
| RealtimeHistory.ReconnectExactly | packages/next/src/community-realtime.ts:95-123 | a reconnect is due exactly when a source was lost or could not be made, and none has fired since |
| RealtimeHistory.SourceExactly | packages/next/src/community-realtime.ts:107-157 | there is a source exactly when one was made and not lost since, and it is the last one made |
| RealtimeHistory.PendingExactly | packages/next/src/community-realtime.ts:56-66 | the pending notice is the latest one taken, until its timer fires |
| RealtimeHistory.QueuedExactly | packages/next/src/community-realtime.ts:59-80 | the queued notice is the latest one whose timer fired behind a running refresh, until the next refresh begins |
| RealtimeHistory.RefreshIsTold | packages/next/src/community-realtime.ts:59-80 | a refresh begins exactly at a timer with none running, or behind a settled one, and is told that notice |
| RealtimeTheorems.CountersAreExact | packages/next/src/community-realtime.ts:56-80 | an event takes at most one notice and begins at most one refresh, which covers every notice taken before it |
| RealtimeTheorems.DeliveryExactly | packages/next/src/community-realtime.ts:56-80 | however a mounted client goes on with callbacks that return promises, every notice is covered, pending with its timer armed, or queued behind a running refresh, if and only if no earlier callback threw as its refresh began |
| RealtimeTheorems.NothingIsLost | packages/next/src/community-realtime.ts:56-80 | after every run that left no refresh stuck, a notice not yet followed by a refresh is pending with its timer armed, or queued behind a running refresh |
| RealtimeTheorems.StuckExactly | packages/next/src/community-realtime.ts:69-78 | a run ends stuck exactly when a refresh it began threw at once |
| RealtimeTheorems.RefreshesDoNotOverlap | packages/next/src/community-realtime.ts:64-79 | a refresh begins only while mounted, and only when none is running or the running one settles |
| RealtimeTheorems.SettlingIsBounded | packages/next/src/community-realtime.ts:56-80 | from every state of every run, timers and settling promises make at most six steps on their own, and take no notice |
| RealtimeTheorems.QuietMeansCovered | packages/next/src/community-realtime.ts:56-80 | when notices stop, the client falls quiet within six steps, and every notice has then been followed by a refresh, unless a callback threw |
| RealtimeTheorems.ThrowIsFinal | packages/next/src/community-realtime.ts:69-78 | an event leaves the client stuck exactly if it was, or if the refresh the event begins throws; a stuck client begins no refresh |
| RealtimeTheorems.ThrowLosesNotices | packages/next/src/community-realtime.ts:69-78 | a run of five events in which a notice is never followed by a refresh |
| RealtimeTheorems.DisposalIsFinal | packages/next/src/community-realtime.ts:151-157 | after disposal nothing is armed, and no event takes a notice, begins a refresh or reconnects |
| Headings.Toc.WalkInto | packages/editor/src/heading-toc.ts:73-101 | the walk appends the entries of the specification and advances the slug counters |
| HeadingListing.TocListsTitles | packages/editor/src/heading-toc.ts:47-101 | the table of contents lists exactly the rendered second- and third-level headings that say something, in order, with trimmed text and level |
| HeadingTheorems.RendererMatchesToc | packages/editor/src/render-rich-text.tsx:119-240 | for every document the ids the renderer emits are the ids of the table of contents, in order |
| HeadingTheorems.NumberingHasNoGaps | packages/editor/src/heading-toc.ts:47-63 | an entry's number is the count of earlier entries with its slug |
| HeadingTheorems.IdsUniqueExactly | packages/editor/src/heading-toc.ts:40-63 | two entries share an id if and only if the slug of some heading text is the slug of a repeated one with its number |
| HeadingTheorems.NotesExample | packages/editor/src/heading-toc.ts:40-63 | "Notes", "Notes", "Notes 2" share an id |
| ConfigEditor.LocateSpan | packages/cli-nexpress/src/config-editor.ts:70-89 | one pass finds the first start marker and the first end marker on a later line |
| ConfigRegions.SpanExactly | packages/cli-nexpress/src/config-editor.ts:70-89 | a region is found exactly from the first line with the opening marker to the first later line with the closing one, with all the white space the first begins with |
| ConfigRegions.RegionsExactly | packages/cli-nexpress/src/config-editor.ts:91-122 | a file is edited exactly when both regions are there |
| ConfigEditor.AddConfigEntry | packages/cli-nexpress/src/config-editor.ts:124-143 | inserts the list line, then the import line at its offset from before |
| ConfigEditor.RemoveConfigEntry | packages/cli-nexpress/src/config-editor.ts:145-177 | drops exactly the matching lines inside the two regions |
| ConfigTheorems.SpanAfterInsert | packages/cli-nexpress/src/config-editor.ts:70-89 | inserting a line without markers shifts a region and never makes or breaks one |
| ConfigRoundTrip.RemoveUndoesAdd | packages/cli-nexpress/src/config-editor.ts:124-177 | for an entry that is not in the regions yet, removing after adding restores the exact text if and only if the list region does not end at or before an empty imports region |
| ConfigRoundTrip.SecondAddIsNoOp | packages/cli-nexpress/src/config-editor.ts:124-143 | whatever the regions held before, a second addition is a no-op under the same condition, and only then |
| ConfigRoundTrip.AddKeepsLines | packages/cli-nexpress/src/config-editor.ts:124-143 | an addition inserts two lines; all others stay, in their order |
| ConfigEntries.ImportLineSpelled | packages/cli-nexpress/src/config-editor.ts:133-141 | a plugin gets a default import and a theme a named one, both from the quoted package |
| ConfigEntries.AddWrites | packages/cli-nexpress/src/config-editor.ts:124-143 | an addition writes that import line and the list line, each with the indentation of its region |
| ConfigRemoval.RemoveKeepsLines | packages/cli-nexpress/src/config-editor.ts:145-177 | a removal keeps every line outside the two regions, adds none and moves none |
| ConfigRegions.ListLineExactly | packages/cli-nexpress/src/config-editor.ts:155-155 | a list line is taken for an entry exactly when it is the identifier among white space with at most one comma behind it |
| ConfigRegions.ImportLineExactly | packages/cli-nexpress/src/config-editor.ts:153-154 | an import line is taken for an entry exactly when it begins with the word and white space and names the package in quotes |
| ConfigEntries.OtherEntriesStay | packages/cli-nexpress/src/config-editor.ts:145-177 | a removal leaves the lines of every other entry |
| ConfigRemoval.SecondRemoveExactly | packages/cli-nexpress/src/config-editor.ts:145-184 | a second removal is a no-op if and only if the list region between the kept markers holds no spared line of the entry, and finds no markers if and only if no such region is left |
| ConfigRemoval.SecondRemoveIsNoOp | packages/cli-nexpress/src/config-editor.ts:145-184 | a second removal is a no-op when the first drops neither marker line of the list |
| ConfigRemoval.SecondRemoveEditsAgain | packages/cli-nexpress/src/config-editor.ts:145-184 | for every entry, a file of six lines where a second removal edits again |
| ConfigRoundTrip.ReversedOrderBreaksRemoval | packages/cli-nexpress/src/config-editor.ts:135-142 | a file with the list region first and an empty imports region where removal does not undo addition |

## Left out

Bootstrap:
- Of the order of promise reactions only "starter before other waiters" is kept; every other interleaving is allowed, which covers more runs than JavaScript has. Some synchronous code runs in steps of its own for the same reason.
- A second `reloadPlugins` or `shutdown` call while one is pending only awaits the first promise and adds no state.
- The values a call returns and the errors it throws (only whether it returned or threw is kept), the aggregation of errors, schedule reconciliation results, a jobs flag that is neither on nor off, and the contents of collections, themes and i18n.
- Release calls that throw: the flags clear as after a success, which is what the source does. Whether the search adapter was shut down (by `shutdown`) or only reset (by a rollback) is not told apart; both are its release.

Gettext:
- GettextContext.ContextRoundTrip: JSON parsing inside contexts is a function `read` that gives back what JSON printing was given; the general JSON grammar is not modelled.
- The PO library is the identity on ordered tables of messages, so the 16 MiB limit on its text is not modelled.
- Message texts of errors, and extracted comments.

Codex configuration:
- CodexTheorems.AppendThenRecognise: commands, URLs and client ids are assumed to hold no `#`, which their validation and constants guarantee; the values themselves are parameters.
- The Claude configuration, file access and command line.

Block schemas:
- Regular expressions, step alignment on floating-point numbers, rich-text validation and the structural check of block content are uninterpreted predicates; numbers are reals.
- BlockDefinitions.ValidatePropSchema: labels, options, numeric bounds and the other syntactic checks of a field are not modelled, and schemas are values, so its detection of circular schemas is not either.
- Props inherited from an object's prototype, and the human-readable messages of issues.
- Serializable.Walk.Validate: getters, symbols and odd array properties are one flag of an object, checked before its entries.
- JsonClone.Cloner.VisitValue: the same flag is checked up front although the source checks element by element; a failure ends the call either way. The final Build JSON check is not modelled, and the JSON text of a number is given.
- PatternPatch.ApplyPatches: block ids are assumed unique, which the structural check guarantees; the content checks before and after are not modelled.
- `cloneDefinitions`, which rejects definition lists that are not plain arrays of plain objects and copies their metadata through the same JSON walk, and `npAnalyzeBlockDefinitions`, which validates each definition of a list and reports repeated types.

Registry:
- RegistrySelection.SelectPatternCandidates: which patterns a site can use is a parameter, so block references and content checks of patterns are not modelled.
- Validation of a definition before it is stored, and collision warnings.

Comments:
- CommentTheorems.DetachedExactly: ids are assumed unique, as in the API; the builder itself is proved for every list.

Realtime:
- Timer durations, the URL and credentials, and the wire format of messages.

Headings and markers:
- Unicode normalisation in `slugifyHeading` is an uninterpreted function; React elements other than the tree of ids.
- Deriving identifiers from package names: entries have alphanumeric identifiers and package names without white space.

Not modelled at all: CLI dispatch, child processes, file access, scaffolding, MCP transport, CDN purge, cache wrappers and cookies.
