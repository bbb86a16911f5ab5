# Theia language-layer helpers and quick picks, in Dafny

This project models the data transformations and bookkeeping behind several
Theia editor features:

- **Outline.** The plugin host's outline adapter sorts the flat symbol
  information a plugin provides. It then folds the symbols into a tree by
  range containment, using a stack of open parents.
- **Type converters.** These convert between plugin-API and Language
  Server Protocol values: positions, ranges, Markdown, completion and
  symbol kinds, view columns, shell task executions, file changes and
  known commands.
- **Completion adapter.** It converts a plugin's completion items and
  validates their labels and ranges. It numbers every list and item from
  one counter and keeps two caches.
- **Rename adapter.** It checks a plugin's prepare-rename answer against
  the cursor line.
- **Main-side language helpers.** These cover selector matching
  (`matchLanguage`, `matchModel`), protocol kinds and formats as editor
  suggestion and snippet types, the overwrite widths of a suggestion, the
  handle-to-registration table and the `revive*` helpers.
- **Command palette.** It keeps a per-command registry of "when" contexts.
  It builds the valid commands, a bounded recent list and a disjoint list
  of other commands.
- **Task quick pick.** It de-duplicates recent, configured and provided
  tasks under the task registry's equivalence. It groups tasks by scope,
  heads each group with a separator, and decides when a build or test
  command runs the default task directly.
- **Quick file open.** It splits a typed `path:line:column` into a filter
  and a zero-based position. It toggles the ignored files when opened
  twice, and lists each file URI at most once.
- **Build configurations.** The service loads `.theia/builds.json`,
  restores the active configuration from its saved name, and remembers a
  new choice.

Each source file is one module (`Outline`, `TypeConverters`, `Completion`,
`Rename`, `LanguagesMain`, `QuickCommand`, `QuickOpenTask`, `QuickFileOpen`,
`BuildConfigurations`). `Wrappers` and `Sequences` hold shared helpers:
`Option`, `Result`, filtering, insertion sort and search.

Code that updates objects in place is modelled as classes whose methods
state the whole new state. This covers the completion adapter, the palette
service, the task and file quick picks, the build configuration service,
the language registrations and the task record the shell converters fill.
Their loops carry invariants that tie them to specification
functions. Everything else is functions.

Some services are outside this model. External services and predicates
become parameters or abstract values:
- the task registry's `compareTasks`;
- context-key matching;
- visibility and enablement of commands;
- glob tests;
- fuzzy matching and the file-search order (`compareItems`);
- `localeCompare`;
- the storage service;
- the file system;
- JSON parsing and schema validation.

Promises are modelled by their settled values: `Ok` for a resolution, `Err`
for a rejection. Document text is a function from ranges to strings.

## Model

| member | source | states |
|---|---|---|
| TypeConverters.ToPosition | packages/plugin-ext/src/plugin/type-converters.ts:112-114 | a protocol position becomes a plugin position with the same line and character |
| TypeConverters.FromPosition | packages/plugin-ext/src/plugin/type-converters.ts:108-110 | converting a plugin position and reading it back gives the position again |
| TypeConverters.ToRange | packages/plugin-ext/src/plugin/type-converters.ts:90-96 | a protocol range becomes the plugin range of its converted start and end |
| TypeConverters.FromRange | packages/plugin-ext/src/plugin/type-converters.ts:98-106 | `undefined` gives `undefined`, and only `undefined` does; a range converts to one whose plugin reading is the input |
| TypeConverters.PositionRangeRoundTrip | packages/plugin-ext/src/plugin/type-converters.ts:90-114 | positions and ranges round-trip exactly in both directions |
| TypeConverters.FromTextEdit | packages/plugin-ext/src/plugin/type-converters.ts:290-295 | an edit keeps its new text, and its range converts losslessly |
| TypeConverters.FromViewColumn | packages/plugin-ext/src/plugin/type-converters.ts:47-57 | a column from `One` upwards gives `column - 1`; `Beside` gives SIDE_GROUP (-2) and nothing else does; every other input gives ACTIVE_GROUP (-1) |
| TypeConverters.FromMarkdown | packages/plugin-ext/src/plugin/type-converters.ts:173-190 | a code block and a MarkdownString give Markdown; a code block gives the fenced text; a plain string keeps its text as plain text; any other value gives empty plain text |
| TypeConverters.CodeBlockRoundTrip | packages/plugin-ext/src/plugin/type-converters.ts:179-183 | the fenced text of a code block, read back, gives the same language and code |
| TypeConverters.ConcatMarkdown | packages/plugin-ext/src/plugin/type-converters.ts:155-165 | a single block concatenates to that block's own Markdown value |
| TypeConverters.FromManyMarkdown | packages/plugin-ext/src/plugin/type-converters.ts:155-165 | the result is Markdown whose value is the blocks' values concatenated in order |
| TypeConverters.FromCompletionItemKind | packages/plugin-ext/src/plugin/type-converters.ts:226-255 | each of the 25 plugin kinds gives the protocol kind of the same name (one higher); every other kind, and `undefined`, gives Property; the result is always one of the 25 protocol kinds |
| TypeConverters.ToCompletionItemKind | packages/plugin-ext/src/plugin/type-converters.ts:257-288 | each of the 25 protocol kinds gives the plugin kind of the same name; anything else gives Property |
| TypeConverters.CompletionItemKindRoundTrip | packages/plugin-ext/src/plugin/type-converters.ts:226-288 | the two kind maps are inverse bijections on the 25 kinds; undefined kinds default to Property in both directions |
| TypeConverters.SymbolKindMappingShape | packages/plugin-ext/src/plugin/type-converters.ts:449-477 | the table holds exactly the 26 plugin symbol kinds, and each maps to the next number |
| TypeConverters.FromSymbolKind | packages/plugin-ext/src/plugin/type-converters.ts:479-481 | a kind in the table gives its protocol kind; any other kind gives Property |
| TypeConverters.ToSymbolKind | packages/plugin-ext/src/plugin/type-converters.ts:483-490 | the loop over the table finds the plugin kind that maps to the given protocol kind, so `fromSymbolKind` of the result is the input; an unmapped kind gives Property |
| TypeConverters.FromDocumentSymbol | packages/plugin-ext/src/plugin/type-converters.ts:493-505 | name, detail, kind and both ranges are converted, and so are all children, in order |
| TypeConverters.FromDocumentSymbolKeepsSymbols | packages/plugin-ext/src/plugin/type-converters.ts:493-505 | the converted tree lists the same symbol names in the same preorder |
| TypeConverters.FromDocumentSymbolsKeepSymbols | packages/plugin-ext/src/plugin/type-converters.ts:493-505 | a converted list of trees lists the same names in preorder |
| TypeConverters.CreateFileChange | packages/plugin-ext/src/plugin/type-converters.ts:436-447 | both URIs give a rename, only the old one a delete, only the new one a create, neither gives `undefined`; the change carries both URIs |
| TypeConverters.Split | packages/plugin-ext/src/plugin/type-converters.ts:621-622 | `split(' ')` gives at least one piece, no piece holds a separator, and joining the pieces gives the text back |
| TypeConverters.ShellArgValues | packages/plugin-ext/src/plugin/type-converters.ts:662-680 | as written: no arguments or an empty list give []; when the first argument is a string every argument is passed as it is (strings and quoted-string objects alike); otherwise every argument contributes its `value` field, `undefined` for a plain string |
| TypeConverters.GetShellArgs | packages/plugin-ext/src/plugin/type-converters.ts:662-680 | the loop that pushes every `value` computes the as-written result |
| TypeConverters.ShellArgTexts | packages/plugin-ext/src/plugin/type-converters.ts:662-680 | corrected: the text of every argument, plain or quoted, in order |
| TypeConverters.ShellArgValuesUniform | packages/plugin-ext/src/plugin/type-converters.ts:662-680 | for all-plain or all-quoted lists the as-written result is the argument texts |
| TypeConverters.MixedShellArgsMisconverted | packages/plugin-ext/src/plugin/type-converters.ts:667-679 | mixed lists give an `undefined` entry or a raw quoted object, where the texts are `["echo", "hi"]` |
| TypeConverters.GetShellExecutionOptions | packages/plugin-ext/src/plugin/type-converters.ts:683-706 | the environment, quoting and arguments are copied; the executable only when truthy |
| TypeConverters.ProcessTaskDto.FromShellExecution | packages/plugin-ext/src/plugin/type-converters.ts:604-632 | options are copied first; a truthy command line is split on ' ', with the first token as the command when non-empty and the rest as arguments; otherwise a string command is taken with its arguments exactly as `getShellArgs` returns them (`ShellArgValues`); a quoted command rejects after the options were copied |
| TypeConverters.ProcessTaskDto.FromProcessExecution | packages/plugin-ext/src/plugin/type-converters.ts:592-602 | the process becomes the command and its argument strings the arguments; options are copied and set the cwd when present |
| TypeConverters.CommandLineRoundTrip | packages/plugin-ext/src/plugin/type-converters.ts:619-628 | the command and arguments recorded for a command line join back into that command line |
| TypeConverters.FromLocation | packages/plugin-ext/src/plugin/type-converters.ts:320-325 | the URI is kept and the range converts losslessly |
| TypeConverters.ConvertShowReferencesArgs | packages/plugin-ext/src/plugin/type-converters.ts:386-411 | absent arguments stay absent; the conversion throws exactly when the first or second argument is `undefined` or the third is not an array; otherwise the length is kept, arguments from index 3 on are unchanged, and a URI, position and locations triple becomes the URI string, the protocol position and the protocol form of each location in turn |
| TypeConverters.ConvertShowReferencesArgsIdempotent | packages/plugin-ext/src/plugin/type-converters.ts:386-411 | arguments that convert without error convert to themselves a second time |
| TypeConverters.MapKnownCommandAsWritten | packages/plugin-ext/src/plugin/type-converters.ts:372-385 | as written: `showReferences` maps to the internal id with converted arguments, failing when they cannot be converted; any other id fails exactly when it names an inherited object member, and otherwise passes through |
| TypeConverters.MapKnownCommand | packages/plugin-ext/src/plugin/type-converters.ts:372-385 | corrected: `showReferences` maps to the internal id with converted arguments, failing when they cannot be converted; every other id passes through with its arguments unchanged |
| TypeConverters.KnownCommandInheritedKey | packages/plugin-ext/src/plugin/type-converters.ts:372-385 | `toString` breaks the as-written lookup but passes through the corrected one; for every other id the two agree |
| TypeConverters.TitleOf | packages/plugin-ext/src/plugin/type-converters.ts:359-370 | the title is the first truthy one of title and label, otherwise a single space, and is never empty |
| TypeConverters.ToInternalCommand | packages/plugin-ext/src/plugin/type-converters.ts:359-370 | the id is `command` when truthy, else `id`; it goes through `KnownCommands.map` as written, so the conversion fails exactly when that id names an inherited object member or is `showReferences` with arguments that cannot be converted; otherwise `showReferences` is renamed with converted arguments and any other id passes through, the title is the truthy title, else never empty, and the tooltip is kept |
| Outline.ComparePositions | packages/plugin-ext/src/plugin/languages/outline.ts:57-59 | `compareTo` is 0 exactly on equal positions and negative exactly when the line, then the character, is smaller |
| Outline.SymbolOrderIsTotalPreorder | packages/plugin-ext/src/plugin/languages/outline.ts:56-62 | the start-ascending, end-descending comparator is a total preorder |
| Outline.SortedSymbols | packages/plugin-ext/src/plugin/languages/outline.ts:56-62 | the sorted copy is ordered by the comparator and is a permutation of the caller's symbols |
| Outline.ContainsRange | packages/plugin-ext/src/plugin/languages/outline.ts:95-111 | containment implies both ends lie within the container's lines; for a valid inner range it holds exactly when its start and end lie within the container |
| Outline.EqualsRange | packages/plugin-ext/src/plugin/languages/outline.ts:116-125 | holds exactly when all four coordinates agree |
| Outline.RangeRelationsBasics | packages/plugin-ext/src/plugin/languages/outline.ts:95-125 | equality is reflexive and symmetric; a range contains itself |
| Outline.StrictlyContainsTransitive | packages/plugin-ext/src/plugin/languages/outline.ts:83 | on valid ranges, contained but not equal is transitive |
| Outline.ChooseParentNone | packages/plugin-ext/src/plugin/languages/outline.ts:76-81 | a symbol becomes a root exactly when no symbol on the stack strictly contains it |
| Outline.ChooseParentIsDeepest | packages/plugin-ext/src/plugin/languages/outline.ts:82-88 | otherwise its parent is the deepest stacked symbol that strictly contains it |
| Outline.ParentsUpToIsTable | packages/plugin-ext/src/plugin/languages/outline.ts:65-90 | every chosen parent was placed before its child |
| Outline.KidsOfMembers | packages/plugin-ext/src/plugin/languages/outline.ts:84 | a node's children are exactly the symbols whose chosen parent it is |
| Outline.KidsOfIncreasing | packages/plugin-ext/src/plugin/languages/outline.ts:76-89 | children and roots appear in the order they were placed |
| Outline.ElementOf | packages/plugin-ext/src/plugin/languages/outline.ts:66-74 | the element keeps name and container name, has empty detail and no children, converts the kind, and uses the location's range for both ranges |
| Outline.PlaceElement | packages/plugin-ext/src/plugin/languages/outline.ts:76-89 | the inner loop pops until the top strictly contains the symbol and attaches it there and pushes it, or makes it a root on an empty stack; it chooses the deepest containing stacked symbol |
| Outline.NestSymbols | packages/plugin-ext/src/plugin/languages/outline.ts:63-90 | the loop's children lists and roots are those of the parent table |
| Outline.AsDocumentSymbolTree | packages/plugin-ext/src/plugin/languages/outline.ts:53-92 | returns the outline of the symbols: sorted, each placed under its deepest strictly containing parent or as a root |
| Outline.NestingFromLists | packages/plugin-ext/src/plugin/languages/outline.ts:63-91 | the children lists and roots built by the loop read out as the outline forest |
| Outline.ParentChoice | packages/plugin-ext/src/plugin/languages/outline.ts:82-86 | a symbol's parent comes before it and strictly contains it; it is a root iff nothing on the stack contains it, otherwise it is the deepest container |
| Outline.EachSymbolOnce | packages/plugin-ext/src/plugin/languages/outline.ts:65-90 | every symbol is in exactly one list, as a root or under exactly one parent, and no list repeats a symbol |
| Outline.AncestorsContain | packages/plugin-ext/src/plugin/languages/outline.ts:82-86 | on valid ranges every ancestor strictly contains its descendant |
| Outline.ProvideDocumentSymbols | packages/plugin-ext/src/plugin/languages/outline.ts:33-51 | an unknown document rejects; an absent or empty result gives `undefined`; document symbols are converted one by one; symbol information is folded into the outline |
| Completion.IsIncomplete | packages/plugin-ext/src/plugin/languages/completion.ts:53-59 | the flag is set only for a list whose `isIncomplete` is true |
| Completion.WordRangeBefore | packages/plugin-ext/src/plugin/languages/completion.ts:63-64 | it ends at the cursor; it starts at the word's start, or at the cursor when there is no word |
| Completion.FromTextEdits | packages/plugin-ext/src/plugin/languages/completion.ts:131 | the additional edits are converted one by one |
| Completion.ConvertCompletionItem | packages/plugin-ext/src/plugin/languages/completion.ts:117-162 | an item converts exactly when its label is a non-empty string and its effective range is single-line on the cursor's line; a non-string or empty label gives `undefined` |
| Completion.ConvertedItemFields | packages/plugin-ext/src/plugin/languages/completion.ts:123-160 | the converted item keeps its label, converts its kind and range, and takes string insert text as plain text, a snippet as a snippet, and otherwise the label as plain text |
| Completion.DefaultRangeAcceptance | packages/plugin-ext/src/plugin/languages/completion.ts:136-147 | an item with a usable label and no range of its own is accepted against the default range |
| Completion.ReleaseUndoesRecords | packages/plugin-ext/src/plugin/languages/completion.ts:73-76 | removing the ids freshly recorded for a list gives the cache back as it was |
| Completion.ProvideThenReleaseList | packages/plugin-ext/src/plugin/languages/completion.ts:50-78 | providing a list and then releasing that whole list restores both caches |
| Completion.CacheAfterRelease | packages/plugin-ext/src/plugin/languages/completion.ts:112-115 | `cache.delete(id)`: a defined id is no longer a key, every other entry stays, and an undefined or absent id changes nothing |
| Completion.ReleasedIdOf | packages/plugin-ext/src/main/browser/languages-main.ts:196-205 | the id the editor's `dispose` passes is always `undefined`, because the returned list carries no `id` |
| Completion.ReleaseAsCalledKeepsItems | packages/plugin-ext/src/main/browser/languages-main.ts:196-205 | as called: releasing leaves the item cache unchanged, so every cached item of every list stays |
| Completion.CompletionAdapter.constructor | packages/plugin-ext/src/plugin/languages/completion.ts:28-35 | the counter starts at 0 and both caches start empty |
| Completion.CompletionAdapter.ProvideCompletionItems | packages/plugin-ext/src/plugin/languages/completion.ts:37-81 | an unknown document rejects; no answer gives `undefined` and changes nothing; otherwise a fresh list id is drawn, each accepted item draws the next fresh id, is returned in order, is cached under that id and is named in the list's entry |
| Completion.CompletionAdapter.CollectSuggestions | packages/plugin-ext/src/plugin/languages/completion.ts:66-78 | the loop returns the accepted items' conversions with consecutive fresh ids and records exactly those in the caches |
| Completion.CompletionAdapter.ResolveCompletionItem | packages/plugin-ext/src/plugin/languages/completion.ts:83-110 | without a resolver, or with an id not in the cache, the completion comes back unchanged; otherwise the resolved item's conversion comes back, or the completion itself when it fails to convert |
| Completion.CompletionAdapter.ReleaseCompletionItems | packages/plugin-ext/src/plugin/languages/completion.ts:112-115 | as written: the item cache becomes `CacheAfterRelease` of the id it receives (possibly `undefined`); the list cache and the counter stay |
| Completion.CompletionAdapter.ReleaseCompletionList | packages/plugin-ext/src/plugin/languages/completion.ts:112-115 | corrected: removes the list's entry and every item it names, and nothing else |
| Rename.SupportsResolving | packages/plugin-ext/src/plugin/languages/rename.ts:29-31 | holds exactly when the provider has `prepareRename` |
| Rename.OfferedRange | packages/plugin-ext/src/plugin/languages/rename.ts:74-82 | a range is offered as itself; an object offers its range; anything else offers nothing |
| Rename.ResolveRenameLocation | packages/plugin-ext/src/plugin/languages/rename.ts:57-96 | no `prepareRename` gives `undefined`; an unknown document rejects, and only that rejects; a location is given exactly when a range is offered whose lines include the cursor's; its placeholder is the document text for a range and the supplied placeholder for an object |
| Rename.CursorLineRangeAccepted | packages/plugin-ext/src/plugin/languages/rename.ts:84-94 | a range on the cursor's own line is accepted with the document's text as placeholder |
| Rename.ProvideRenameEdits | packages/plugin-ext/src/plugin/languages/rename.ts:38-55 | an unknown document rejects, and only that rejects; a falsy result gives `undefined`; otherwise the converted edit |
| Rename.AsMessage | packages/plugin-ext/src/plugin/languages/rename.ts:99-107 | a string gives itself; an Error with a string message gives the message; anything else gives `undefined` |
| LanguagesMain.MatchCases | packages/plugin-ext/src/main/browser/languages-main.ts:743-772 | an array matches iff some element does; a filter without a language matches every language; a string matches iff it is equal; a filter matches a model iff no truthy field disagrees |
| LanguagesMain.MatchModelImpliesMatchLanguage | packages/plugin-ext/src/main/browser/languages-main.ts:743-772 | whatever matches a model matches its language |
| LanguagesMain.LanguageOnlyFilter | packages/plugin-ext/src/main/browser/languages-main.ts:747-757 | a filter with only a language matches a model exactly when the languages are equal |
| LanguagesMain.AsSuggestionType | packages/plugin-ext/src/main/browser/languages-main.ts:144-173 | every kind gets a non-empty type name |
| LanguagesMain.SuggestionTypeKind | packages/plugin-ext/src/main/browser/languages-main.ts:144-173 | a type name read back is one of the 25 protocol kinds |
| LanguagesMain.SuggestionTypeRoundTrip | packages/plugin-ext/src/main/browser/languages-main.ts:144-173 | the 25 kinds get 25 distinct names, so the names read back to the kinds; unknown and undefined kinds give `method` |
| LanguagesMain.PluginKindsReachEditor | packages/plugin-ext/src/main/browser/languages-main.ts:144-173 | every plugin completion kind reaches the editor under its own name; an undefined kind arrives as `property` |
| LanguagesMain.AsSnippetType | packages/plugin-ext/src/main/browser/languages-main.ts:175-183 | an undefined (or zero) format gives `undefined`; plain text gives `internal`, and only plain text does; a snippet gives `textmate` |
| LanguagesMain.AsSuggestion | packages/plugin-ext/src/main/browser/languages-main.ts:116-140 | label, type and snippet type are converted; with a text edit, the insert text is its new text and the overwrite widths are the cursor's distances to the edit's ends; otherwise the insert text is `insertText` or `''` |
| LanguagesMain.DefaultRangeSuggestion | packages/plugin-ext/src/main/browser/languages-main.ts:131-134 | an item without its own range overwrites the word before the cursor and nothing after it |
| LanguagesMain.WordBeforeCursorOverwritten | packages/plugin-ext/src/main/browser/languages-main.ts:131-134 | with a word starting earlier on the line, the suggestion overwrites exactly that word's characters before the cursor |
| LanguagesMain.ReviveRegExp | packages/plugin-ext/src/main/browser/languages-main.ts:775-780 | `undefined` or `null` gives `undefined`; otherwise an expression with the pattern and flags |
| LanguagesMain.ReviveRegExpRoundTrip | packages/plugin-ext/src/main/browser/languages-main.ts:775-780 | a property of the abstraction only (a regular expression as its pattern and flags): serializing the revived value gives the input back |
| LanguagesMain.ReviveIndentationRule | packages/plugin-ext/src/main/browser/languages-main.ts:782-792 | `undefined` gives `undefined`; otherwise each of the four patterns is revived |
| LanguagesMain.ReviveOnEnterRule | packages/plugin-ext/src/main/browser/languages-main.ts:794-800 | both texts are revived and the action is kept |
| LanguagesMain.ReviveOnEnterRules | packages/plugin-ext/src/main/browser/languages-main.ts:802-807 | `undefined` gives `undefined`; otherwise the rules are revived one by one, with the same length and order |
| LanguagesMain.ReviveConfiguration | packages/plugin-ext/src/main/browser/languages-main.ts:68-76 | comments and brackets are kept; the word pattern, the indentation rules and the on-enter rules are revived |
| LanguagesMain.LanguagesMainState.constructor | packages/plugin-ext/src/main/browser/languages-main.ts:47 | no registrations at the start |
| LanguagesMain.LanguagesMainState.Unregister | packages/plugin-ext/src/main/browser/languages-main.ts:60-66 | a registered handle is disposed and removed; an unknown handle changes nothing; other handles are untouched |
| LanguagesMain.LanguagesMainState.SetLanguageConfiguration | packages/plugin-ext/src/main/browser/languages-main.ts:68-78 | the revived configuration is handed to the editor and its registration is stored under the handle |
| QuickCommand.PushContext | packages/core/src/browser/quick-input/quick-command-service.ts:53-56 | `when` is appended to that command's list, which is created when missing; other commands keep theirs |
| QuickCommand.DisposeContext | packages/core/src/browser/quick-input/quick-command-service.ts:57-62 | the first occurrence of `when` is removed from that command's list, if present; nothing else changes |
| QuickCommand.DisposeAfterPush | packages/core/src/browser/quick-input/quick-command-service.ts:53-63 | disposing right after pushing restores the command's contexts as a multiset, and exactly when `when` was not already listed; a new command is left with an empty list |
| QuickCommand.PushThenDisposeHides | packages/core/src/browser/quick-input/quick-command-service.ts:71-82 | a command whose only context is disposed again is no longer valid, since `some` over an empty list is false |
| QuickCommand.RecentOf | packages/core/src/browser/quick-input/quick-command-service.ts:101-115 | the recent list is never longer than the command history |
| QuickCommand.RecentOfBounds | packages/core/src/browser/quick-input/quick-command-service.ts:98-115 | the recent list never exceeds the limit and is empty for a limit of 0; each entry is a recent command that is valid and not exempted |
| QuickCommand.OthersDisjoint | packages/core/src/browser/quick-input/quick-command-service.ts:117-123 | the other list holds exactly the valid commands equal to no recent one, so for a reflexive equality the two lists are disjoint |
| QuickCommand.PaletteLists | packages/core/src/browser/quick-input/quick-command-service.ts:125-155 | both lists are labelled, visible and enabled; the other list is a sorted permutation of its normalized commands; the recent list is bounded by the limit |
| QuickCommand.QuickCommandService.constructor | packages/core/src/browser/quick-input/quick-command-service.ts:52 | no contexts registered at the start |
| QuickCommand.QuickCommandService.PushCommandContext | packages/core/src/browser/quick-input/quick-command-service.ts:53-56 | the registry becomes `PushContext` of the old one |
| QuickCommand.QuickCommandService.DisposeCommandContext | packages/core/src/browser/quick-input/quick-command-service.ts:57-62 | the registry becomes `DisposeContext` of the old one |
| QuickCommand.QuickCommandService.GetValidCommands | packages/core/src/browser/quick-input/quick-command-service.ts:71-82 | the loop keeps, in order, exactly the commands with a label whose context list is absent or has a matching context |
| QuickCommand.QuickCommandService.GetCommands | packages/core/src/browser/quick-input/quick-command-service.ts:89-134 | the loops build the bounded recent list and the other list of the valid commands, normalized and (for other) sorted |
| QuickOpenTask.FilteredRecent | packages/task/src/browser/quick-open-task.ts:331-337 | never longer than the recent list |
| QuickOpenTask.FilteredRecentMembers | packages/task/src/browser/quick-open-task.ts:331-337 | every entry is a configured or provided task equivalent to some recent task |
| QuickOpenTask.FilteredRecentKeepsMatched | packages/task/src/browser/quick-open-task.ts:331-337 | when every recent task has an equivalent, none is dropped |
| QuickOpenTask.GetFilteredTasks | packages/task/src/browser/quick-open-task.ts:327-358 | the recent list is the first equivalent of each recent task; provided tasks equivalent to no listed recent or configured task are kept; configured tasks equivalent to no listed recent task are kept |
| QuickOpenTask.CollectFilteredRecent | packages/task/src/browser/quick-open-task.ts:331-337 | the first loop computes `FilteredRecent` |
| QuickOpenTask.FilterOutSame | packages/task/src/browser/quick-open-task.ts:339-353 | the other loops keep, in order, the tasks equivalent to none listed |
| QuickOpenTask.FilteredTasksCover | packages/task/src/browser/quick-open-task.ts:327-358 | no task is lost: each configured or provided task is listed or equivalent to a listed one |
| QuickOpenTask.AsItems | packages/task/src/browser/quick-open-task.ts:313-319 | one task entry per task, in order |
| QuickOpenTask.GetItems | packages/task/src/browser/quick-open-task.ts:311-325 | no tasks give no entries; otherwise one separator with the group label, then the tasks' entries |
| QuickOpenTask.TaskItemsOfGroup | packages/task/src/browser/quick-open-task.ts:311-325 | the task entries of a group are exactly its tasks' entries |
| QuickOpenTask.InitItemsTasks | packages/task/src/browser/quick-open-task.ts:73-91 | the task entries `doInit` lists are the filtered recent, then configured, then provided tasks |
| QuickOpenTask.RenderScope | packages/task/src/browser/quick-open-task.ts:451-461 | a folder scope gives its display name in a multi-root workspace and `''` otherwise; an enum scope gives its `TaskScope` name |
| QuickOpenTask.ScopeKeysSeparate | packages/task/src/browser/quick-open-task.ts:363-367 | folder URIs with a scheme and enum scopes get distinct keys |
| QuickOpenTask.GroupingPartitions | packages/task/src/browser/quick-open-task.ts:360-374 | each task lies in exactly the group of its scope key; each group is a permutation of its tasks and is sorted by label |
| QuickOpenTask.ScopeKeysFilter | packages/task/src/browser/quick-open-task.ts:362-369 | a key occurs among the tasks exactly when its group is non-empty |
| QuickOpenTask.CollectKeys | packages/task/src/browser/quick-open-task.ts:362-369 | the collected groups are keyed by exactly the scope keys that occur |
| QuickOpenTask.CollectGroups | packages/task/src/browser/quick-open-task.ts:362-369 | each collected group is its key's tasks, in task order |
| QuickOpenTask.GroupTasksByScope | packages/task/src/browser/quick-open-task.ts:360-374 | the map returned is a grouping of the tasks by scope key, each group sorted by label |
| QuickOpenTask.CollectByScope | packages/task/src/browser/quick-open-task.ts:362-369 | the collecting loop computes `Collect` |
| QuickOpenTask.SortGroups | packages/task/src/browser/quick-open-task.ts:370-372 | the keys stay, and each group is sorted by label |
| QuickOpenTask.QuickOpenTaskService.constructor | packages/task/src/browser/quick-open-task.ts:40 | no entries and no task run at the start |
| QuickOpenTask.QuickOpenTaskService.DoInit | packages/task/src/browser/quick-open-task.ts:73-91 | the entries become the recent, configured and provided groups |
| QuickOpenTask.QuickOpenTaskService.Open | packages/task/src/browser/quick-open-task.ts:93-103 | the entries of `doInit`, or the single "No task to run found" entry when there are none |
| QuickOpenTask.QuickOpenTaskService.RunBuildOrTestTask | packages/task/src/browser/quick-open-task.ts:227-288 | a task runs exactly when there is exactly one default task of the kind, and it is that task; otherwise the entries become the kind's tasks, or an entry offering to configure one |
| QuickOpenTask.ChooseBuildOrTest | packages/task/src/browser/quick-open-task.ts:233-285 | the decision of `runBuildOrTestTask` on the listed entries, case by case |
| QuickOpenTask.DirectRunIsTheDefault | packages/task/src/browser/quick-open-task.ts:243-253 | a task that runs directly is a listed task, of the kind, and its default |
| QuickFileOpen.DigitsEnd | packages/file-search/src/browser/quick-file-open.ts:44 | the end of the maximal digit run, as `\d*` reads it greedily |
| QuickFileOpen.ExecFrom | packages/file-search/src/browser/quick-file-open.ts:44 | `exec` finds the leftmost index where the pattern matches, and no earlier one |
| QuickFileOpen.ParseGroup | packages/file-search/src/browser/quick-file-open.ts:385-390 | `parseInt` of a captured group is a number exactly when the group is a non-empty digit run |
| QuickFileOpen.SplitFilterAndRange | packages/file-search/src/browser/quick-file-open.ts:377-401 | the range starts where it ends; no match gives the whole expression at the top of the file; otherwise the filter is the text before the match |
| QuickFileOpen.SplitLineAndColumn | packages/file-search/src/browser/quick-file-open.ts:384-392 | a line L > 0 gives L - 1, a missing or 0 line gives 0; the column follows the same rule and is read only when a line parsed |
| QuickFileOpen.NatToDigits | packages/file-search/src/browser/quick-file-open.ts:385 | the decimal digits of a number, which parse back to it |
| QuickFileOpen.TypedSuffixMatches | packages/file-search/src/browser/quick-file-open.ts:44 | the pattern matches `:line:column` at its colon and captures both numbers |
| QuickFileOpen.SplitTypedPosition | packages/file-search/src/browser/quick-file-open.ts:377-401 | typing `file:L:C` after a plain filter gives that filter and position (L-1, C-1), or 0 where a number is 0 |
| QuickFileOpen.PlainFilterKept | packages/file-search/src/browser/quick-file-open.ts:377-401 | a filter with no `#`, `:` or `(` is kept whole, at the top of the file |
| QuickFileOpen.Dedup | packages/file-search/src/browser/quick-file-open.ts:142-172 | the result holds exactly the elements not excluded |
| QuickFileOpen.DedupDistinct | packages/file-search/src/browser/quick-file-open.ts:142-172 | the result repeats nothing |
| QuickFileOpen.Headed | packages/file-search/src/browser/quick-file-open.ts:150-152 | a group gets its separator exactly when it is non-empty |
| QuickFileOpen.PicksShape | packages/file-search/src/browser/quick-file-open.ts:136-198 | no pick is listed twice, so each URI appears at most once; a separator opens each group; an empty filter gives the recent picks when a root exists, else [] |
| QuickFileOpen.RecentThenResults | packages/file-search/src/browser/quick-file-open.ts:142-183 | the recent group followed by the results group repeats nothing, and separators sit only at the heads |
| QuickFileOpen.QuickFileOpenService.constructor | packages/file-search/src/browser/quick-file-open.ts:85-92 | closed, hiding ignored files, with the default filter and range |
| QuickFileOpen.QuickFileOpenService.Open | packages/file-search/src/browser/quick-file-open.ts:107-119 | when open, only the ignored-files flag flips; when closed, it hides ignored files, resets the filter and range, and opens |
| QuickFileOpen.QuickFileOpenService.GetPicks | packages/file-search/src/browser/quick-file-open.ts:136-198 | the split filter is recorded and the picks are those of `Picks` on that filter; nothing else changes |
| QuickFileOpen.CollectRecent | packages/file-search/src/browser/quick-file-open.ts:145-157 | the loop collects the file locations passing the fuzzy test, each URI once, behind one separator |
| QuickFileOpen.CollectResults | packages/file-search/src/browser/quick-file-open.ts:164-172 | the loop picks the search results not already collected, each once |
| BuildConfigurations.AsBuildConfiguration | packages/languages/src/browser/build-configurations-service.ts:54-67 | a schema-valid entry gives its string name and directory |
| BuildConfigurations.LoadConfigurations | packages/languages/src/browser/build-configurations-service.ts:110-152 | no workspace root rejects, and only that rejects; a missing file gives [] and no report; a syntax error or schema violation gives [] and one report; a valid document gives its `builds`, or [] without them |
| BuildConfigurations.BuildsDocument | packages/languages/src/browser/build-configurations-service.ts:47-70 | the document written for a list of builds has a `builds` array with one entry per build |
| BuildConfigurations.BuildObject | packages/languages/src/browser/build-configurations-service.ts:54-67 | the object written for a build is schema-valid and reads back as that build |
| BuildConfigurations.BuildsRoundTrip | packages/languages/src/browser/build-configurations-service.ts:124-142 | loading the document written for a list of builds gives the list back, with nothing reported |
| BuildConfigurations.LoadActiveConfiguration | packages/languages/src/browser/build-configurations-service.ts:157-172 | nothing saved gives `undefined`; a result is the first configuration with the saved name; `undefined` iff none has it; a rejection of the configurations rejects only when a name is saved |
| BuildConfigurations.SavedFor | packages/languages/src/browser/build-configurations-service.ts:177-182 | the saved name is the configuration's name, or none for no configuration |
| BuildConfigurations.SavedChoiceRestored | packages/languages/src/browser/build-configurations-service.ts:157-182 | a saved choice is the one restored next time, when no other configuration has its name; no choice restores none |
| BuildConfigurations.BuildConfigurationService.constructor | packages/languages/src/browser/build-configurations-service.ts:98-105 | `init`: the configurations are loaded, an invalid file is reported once, the active configuration is restored from storage, and the change event fires with it |
| BuildConfigurations.BuildConfigurationService.GetActiveConfiguration | packages/languages/src/browser/build-configurations-service.ts:184-186 | returns the active configuration |
| BuildConfigurations.BuildConfigurationService.GetConfigurations | packages/languages/src/browser/build-configurations-service.ts:197-199 | returns the loaded configurations |
| BuildConfigurations.BuildConfigurationService.ChangeActiveConfiguration | packages/languages/src/browser/build-configurations-service.ts:188-195 | the choice becomes active, its name is saved (none for no choice), the event fires with it, and nothing else changes |
| Sequences.Filter | packages/task/src/browser/quick-open-task.ts:339-353 | every kept element satisfies the predicate, every passing element is kept, and the result is a sub-multiset of the input; order is stated by `FilterAppend` and `FilterStep` |
| Sequences.FilterCounts | packages/task/src/browser/quick-open-task.ts:339-353 | the filter keeps every occurrence of a passing value and no occurrence of a failing one |
| Sequences.FilterAppend | packages/task/src/browser/quick-open-task.ts:339-353 | filtering a concatenation is the concatenation of the filtered parts, so kept elements keep their relative order |
| Sequences.FilterStep | packages/task/src/browser/quick-open-task.ts:339-353 | filtering one more element appends it to the filtered prefix exactly when it passes |
| Sequences.SortBySorted | packages/core/src/browser/quick-input/quick-command-service.ts:153-155 | sorting with a total preorder gives a sorted permutation |
| Sequences.RemoveFirst | packages/core/src/browser/quick-input/quick-command-service.ts:58-61 | `indexOf` then `splice`: when `x` occurs, the result is the input without the element at the first index holding `x`, one shorter, with one `x` fewer; when absent, the input unchanged |
| Sequences.Find | packages/languages/src/browser/build-configurations-service.ts:168 | `find`: the first element satisfying the predicate, or none when no element does |

## Left out

- Asynchronous plumbing. Promises, cancellation tokens (except the `cancelled` flag of the file search), `console.warn` and logging are not modelled; a promise is its settled value.
- RPC, the worker bootstrap (`worker-main.ts`), Monaco provider registration (`$register*`, `create*Provider`, `$getLanguages`), the `p2m`/`m2p` converters and every UI class. These are foreign calls or rendering.
- `asCompletionItem` in `languages-main.ts` has an empty body and is not modelled.
- `toViewColumn` is left out because the `EditorPosition` values it reads are declared in `plugin-api.ts`, which is not part of this model.
- Also left out of `type-converters.ts`: `toWebviewPanelShowOptions`, `toSelection`/`fromSelection`, the decoration helpers, `fromDocumentSelector`/`fromGlobPattern`/`fromLanguageSelector`, `fromHover`, `fromDefinitionLink`, `fromDocumentLink`, `fromDocumentHighlight`, `fromWorkspaceEdit`, `toWorkspaceFolder`, `fromTask`/`toTask`, `getProcessExecution`/`getShellExecution`, `fromSymbolInformation`/`toSymbolInformation` (which also post-increments its input's kind), the folding, colour and diagnostic converters. The types they read (`types-impl.ts`, `plugin-api.ts`) are not part of this model.
- `hasResolveSupport` is the adapter's `canResolve` flag; `ObjectIdentifier.mixin` is an optional `id` field on the protocol item.
- `fuzzy.test`, `compareItems`, `localeCompare`, `compareTasks`, `ContextKeyService.match`, `isVisible`/`isEnabled`, `testGlob`, `Command.compareCommands` and `URI.displayName` are function parameters. Their scoring and ordering are not modelled.
- `QuickFileOpen.ParseGroup`: `parseInt` on a digit run is its exact value, so the limits of double precision for very long digit runs are not modelled.
- `QuickFileOpen.ExecFrom`: the pattern is decided by a direct scan. It covers the `\s?` prefix, the `line ` word and the optional `)` and trailing spaces. It is not a general regular-expression engine.
- `QuickOpenTask.RenderScope`: the `TaskScope` values `Global = 1` and `Workspace = 2` are assumed, because `task-protocol.ts` is not part of this model.
- `QuickOpenTask.QuickOpenTaskService.RunBuildOrTestTask`: the choice between `source` and `_source` when running the task is not modelled; the run records the task. The deferred actions of the configure entries are named, not executed.
- `configure()`, `showRunTask()`, `attach()`, `getPicks` of the task quick pick and the terminate/running pickers are UI flows that are not modelled.
- `QuickFileOpen.QuickFileOpenService`: nothing in the file resets `isOpen`, so the model never closes the dialog. The `toItem` labels and icons are reduced to the URI.
- `BuildConfigurations.LoadConfigurations`: JSON parsing and schema validation are abstract inputs: a missing file, syntax errors, or a parsed value checked by a predicate equal to the schema. The error message text (the file URI, Ajv's `dataPath` and message) is modelled by the kind of report only. Entries are projected to `name` and `directory`, where the source returns the parsed objects as they are.
- `BuildConfigurations.BuildConfigurationService`: the logger, the message service and the event emitter are recorded as the sequence of reports shown and the sequence of values fired.
- TypeConverters.ToPosition: `types.Position` rejects negative coordinates; `types-impl.ts` is not part of this model, so the conversion copies any line and character.
- TypeConverters.ToRange: `types.Range` swaps its ends when the start lies after the end; that normalisation is not modelled, so the conversion keeps the ends as given.
- TypeConverters.PositionRangeRoundTrip: the round trips hold for the modelled copies; for negative coordinates or inverted ranges the source's `types.Position`/`types.Range` would throw or reorder instead.
- TypeConverters.CreateFileChange: the optional `options` argument, passed to the protocol change unchanged, is not carried; `types.FileOperationOptions` is declared in `types-impl.ts`, which is not part of this model.
- LanguagesMain.ReviveRegExp: the `RegExp` constructor's exception on an invalid pattern or flags, and its canonical `source` and `flags`, are not modelled; a regular expression is its pattern and flags as given.
- TypeConverters.ConvertShowReferencesArgs: arguments are typed `any[]`; the model raises the errors for `undefined` or `null` in the first two places and for a non-array in the third, but does not model the stringification of other values in the first place (a number, a protocol position giving `"[object Object]"`) or the field copy of other values in the second; those are kept unchanged.
- TypeConverters.ToInternalCommand: inherits that gap; for ill-typed `showReferences` arguments that the source stringifies or copies field by field, the model keeps the argument as it is.
- LanguagesMain.MatchLanguage: the test `DocumentFilter.is` of `monaco-languageclient` is replaced by the constructor `DocumentFilter`; its body is not part of this model. If it requires a set string field, then a filter with no field set would not match (it would fall through to the comparison with the language id), where the model matches every language; and an `undefined` selector reaches `DocumentFilter.is`, where the model returns false. The same holds for LanguagesMain.MatchModel.
- LanguagesMain.MatchModel: see `LanguagesMain.MatchLanguage`; the filter test is the constructor rather than `DocumentFilter.is`.
- Outline.ProvideDocumentSymbols: the source tests only the first element to pick a branch; an array mixing document symbols and symbol information cannot be expressed by the model's datatype, which holds one kind or the other.
- `QuickCommand.QuickCommandService.GetCommands`: the registry's `recent` and `commands` and the history limit are parameters. The exempted list is the single clear-history command. The limit is an integer, so a non-integer preference value, which the source would count down past zero without ever reaching it, is not modelled.

## Findings

| source | as written | input that shows it | evidently intended | confidence | as-written member | corrected member |
|---|---|---|---|---|---|---|
| packages/plugin-ext/src/plugin/type-converters.ts:662-680 | `getShellArgs` looks only at the first argument: if it is a string it returns the array unchanged, otherwise it pushes every argument's `.value` | `[{ value: 'echo', quoting: Strong }, 'hi']` gives `['echo', undefined]`; `['echo', { value: 'hi', quoting: Strong }]` gives a quoted object among the strings | the text of every argument, whether plain or quoted | medium, not executed | TypeConverters.MixedShellArgsMisconverted | TypeConverters.ShellArgTexts |
| packages/plugin-ext/src/plugin/type-converters.ts:372-385 | `KnownCommands.map` looks the id up in an object literal, so ids such as `toString` or `constructor` find inherited members and are treated as known conversions | a command with id `toString` throws: `mappings['toString']` is the inherited function, and its element `[1]` is not callable | only `editor.action.showReferences` is converted; every other id passes through unchanged | medium, not executed | TypeConverters.KnownCommandInheritedKey | TypeConverters.MapKnownCommand |
| packages/plugin-ext/src/plugin/languages/completion.ts:112-115 | `releaseCompletionItems(id)` deletes `id` from the item cache; its only caller, the editor's `dispose` (languages-main.ts, line 205), passes `result.id`, but the returned `CompletionList` has no `id` (the ids are mixed into the items), so it passes `undefined` | providing a list with one accepted item and disposing the editor's result calls `releaseCompletionItems(undefined)`, which leaves the item in the cache and the list's `listCache` entry in place | releasing a list drops its `listCache` entry and every cached item it names | medium, not executed | Completion.ReleaseAsCalledKeepsItems | Completion.CompletionAdapter.ReleaseCompletionList |
