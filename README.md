# Project Symbol Explorer: a Dafny model

Project Symbol Explorer is an editor extension. It asks the editor host for the
workspace's symbols and shows them in a side panel as a small radial "mind
map". The code also holds an outline tree view (`buildTree` and `OutlineNode`
in `src/webview/SymbolOutline.tsx`) and a table view, but the webview as built
never mounts either of them. This project models the logic in that code,
the unmounted outline included, and proves properties of the model:

- **Scanning** (`Extension`): the host's raw workspace-symbol result is
  normalised. Name and kind are copied, the container defaults to `''`, and
  the symbol gets no users. A result that is not a list, or a failed call,
  gives an empty list; only the failure raises an error notification.
- **Reveal** (`Extension.Reveal`): the two find-first lookups that turn a click
  on a symbol into an editor navigation.
- **The panel provider** (`Extension.SymbolViewProvider`): a class holding the
  last symbols, the filter, the loading flag and the attached view. Its
  `show`, `setLoading`, `sendData` and message handler change that state and
  post snapshots to the webview.
- **The kind table**: the 26 symbol-kind names keyed by `String(k)`, and the
  label fallback used on the mind map's cards (which, as the webview is
  wired, always shows the number).
- **The outline** (`Outline`), which is never mounted: `buildTree` works in place. It has two loops
  over the symbols, a name→node dictionary seeded with a `"<root>"` entry,
  and `push` onto children arrays. It is modelled as the class `TreeBuilder`,
  and both loops are proved against recursive specification functions.
  Each node is identified by the position of the symbol that created it. The
  dictionary maps a name to `Root` or `Node(i)`. The model also covers the
  outline rows' initial `open` rule and their toggle.
- **Doc text** (`JsDoc`): `getSymbolJSDoc`'s prioritised choice between
  `jsDoc` and `documentation`, and its newline join.
- **The mind map card** (`Graph`): the 120-character truncation, the show/hide
  toggle, and the choice of a centre card and at most eight cards around it.

Host calls are not made. The workspace-symbol query's answer is an input
(`HostResult`). The by-name query inside `reveal` is a function parameter
`lookup`. The colour theme kind and the package version are parameters. Every
`postMessage` to the webview is recorded by appending it to the provider's
`posted` field. Every call of the `onFilterChange` callback is recorded by
appending to `filterNotifications`.

Five facts about the code that a reader may not expect:

- On duplicate names the last symbol with a name wins: the first loop of
  `buildTree` writes the dictionary in input order
  (`src/webview/SymbolOutline.tsx:21-24`). `Outline.LastIndexOf` and
  `Outline.TableLookup` state this.
- The code has no file-extension or vendor-directory filter and no "used by"
  join: `usedBy` is always `[]` (`src/extension.ts:74`).
- The normalised records sent to the webview carry no `jsDoc` or
  `documentation` property. So in the shipped code the doc text on a card is
  always `''` (`Graph.NormalizedCardHasNoDoc`).
- The webview never receives the kind table: `src/webview/index.tsx:22`
  falls back to `{}` because the page sets no initial data, and
  `src/webview/App.tsx:35-42` does not read the `kindMap` of a `data`
  message. So a card labels every kind by its number
  (`Graph.CardKindWithoutTable`).
- Only the mind map is ever shown. The webview's single entry point
  `src/webview/index.tsx` (`webpack.webview.config.js:5`) renders `App`, and
  `App` imports and renders only `SymbolGraph` (`src/webview/App.tsx:3,144-150`).
  Nothing imports `SymbolOutline` or `SymbolTable`, and the toolbar has no
  view switch. So `buildTree` and the outline rows, modelled in `Outline`,
  describe code that exists but never runs.

Files: `wrappers.dfy` (Option), `symbols.dfy` (the symbol record, the `''` default,
`String(n)` for integers, kind labels), `outline.dfy`, `extension.dfy`,
`jsdoc.dfy`, `graph.dfy`.

## Model

| member | source | states |
|---|---|---|
| Symbols.OrEmpty | src/extension.ts:73 | the `''` default of an optional string: the string itself when present, `''` when absent |
| Symbols.DecimalString | src/webview/SymbolGraph.tsx:30 | `String(kind)` is a non-empty digit string, with a leading `-` exactly for negative kinds |
| Symbols.DecimalStringInjective | src/webview/SymbolGraph.tsx:30 | distinct kinds have distinct `String(kind)` keys |
| Symbols.LabelOf | src/webview/SymbolGraph.tsx:30 | the kind label is the table entry for `String(kind)` when that entry exists and is non-empty, and the raw number otherwise |
| Outline.NewNode | src/webview/SymbolOutline.tsx:22 | `{ ...s, children: [] }`: a node copies the symbol's name, kind, container and users, and starts with no children |
| Outline.Table | src/webview/SymbolOutline.tsx:20-24 | the dictionary the first loop builds: `"<root>"` bound to the root, then each symbol's name bound to its node in input order; its contents are stated by `TableLookup` |
| Outline.Lookup | src/webview/SymbolOutline.tsx:26 | the lookup with root fallback: the entry for `c`, or the root when there is none; `LookupResolves` ties it to `Resolve` |
| Outline.Resolve | src/webview/SymbolOutline.tsx:26 | the parent a container name denotes: the last symbol with that name, or the root; `ResolveSpec` states both cases |
| Outline.PushOnto | src/webview/SymbolOutline.tsx:27 | `parent.children.push(t)` on the root's list or on one node; `PushStep` proves it extends exactly the parent's list |
| Outline.TreeBuilder.constructor | src/webview/SymbolOutline.tsx:19-20 | the builder starts with the dictionary holding only `"<root>"` bound to the root, no nodes, and an empty top-level list |
| Outline.OutlineRow.HasChildren | src/webview/SymbolOutline.tsx:40 | a row has children when its node's children list is non-empty |
| Outline.OutlineRow.ShowsChildren | src/webview/SymbolOutline.tsx:53 | the children are rendered exactly when the row is open and has children; `Toggle` flips it |
| Outline.LastIndexOf | src/webview/SymbolOutline.tsx:21-24 | the position of the last symbol with a name, or -1 exactly when no symbol has it |
| Outline.TableLookup | src/webview/SymbolOutline.tsx:20-24 | after the first loop the dictionary holds `"<root>"` and each symbol name; a name maps to the node of the last symbol with it; `"<root>"` maps to the root unless a symbol has that name |
| Outline.ResolveSpec | src/webview/SymbolOutline.tsx:26 | a container name resolves to the root exactly when no symbol has that name, and otherwise to the last symbol with it |
| Outline.LookupResolves | src/webview/SymbolOutline.tsx:26 | the dictionary lookup with its root fallback, on the built dictionary, equals that resolution |
| Outline.Target | src/webview/SymbolOutline.tsx:27 | `map[s.name]` is the node of the last symbol with `s`'s name, never an earlier one |
| Outline.Pushes | src/webview/SymbolOutline.tsx:25-28 | the children list of a node after `k` steps of the second loop holds only pushed nodes |
| Outline.Sources | src/webview/SymbolOutline.tsx:25-26 | the symbols whose container resolves to a node: all of them, each once, in increasing input order |
| Outline.PushesFollowSources | src/webview/SymbolOutline.tsx:25-28 | a children list holds one entry per source symbol, in order: the node of that symbol's name |
| Outline.EmptyOutline | src/webview/SymbolOutline.tsx:18-30 | no symbols give an empty top-level list |
| Outline.Placement | src/webview/SymbolOutline.tsx:20-27 | symbol `j` goes to the top level exactly when no symbol has its container's name; otherwise it goes to the last symbol with that name; it is pushed onto that one list and no other |
| Outline.ChildrenInInputOrder | src/webview/SymbolOutline.tsx:25-28 | every children list, including the top-level list, follows the input order of the symbols that pushed it |
| Outline.ChildrenAreLastOfName | src/webview/SymbolOutline.tsx:21-27 | every entry of every children list is the last symbol with its name |
| Outline.DuplicateHasNoChildren | src/webview/SymbolOutline.tsx:23-27 | the node of an earlier duplicate is never pushed to, so it never receives children |
| Outline.PushCountAfter | src/webview/SymbolOutline.tsx:25-28 | after `k` steps the top-level list and all nodes' children lists hold `k` entries in all |
| Outline.PushCount | src/webview/SymbolOutline.tsx:25-28 | each input symbol causes exactly one push: the list lengths sum to the number of symbols |
| Outline.PushStep | src/webview/SymbolOutline.tsx:26-27 | one push appends the node to its parent's list, whether root or node, and changes no other list |
| Outline.TreeBuilder.IndexSymbols | src/webview/SymbolOutline.tsx:19-24 | the first loop leaves the dictionary built from all symbols, and one node per symbol that copies its fields with empty children |
| Outline.TreeBuilder.AttachOne | src/webview/SymbolOutline.tsx:26-27 | one iteration of the second loop resolves the parent and pushes the named node, as `Pushes` describes |
| Outline.TreeBuilder.AttachSymbols | src/webview/SymbolOutline.tsx:25-28 | the second loop leaves the root's and every node's children equal to `Children` |
| Outline.BuildTree | src/webview/SymbolOutline.tsx:18-30 | `buildTree` returns the top-level list; each node copies its symbol's name, kind, container and users, and holds exactly its `Children` |
| Outline.ExampleContainer | src/webview/SymbolOutline.tsx:18-30 | `Foo` with a `bar` inside it gives `[Foo]` at the top, with `bar` as `Foo`'s only child |
| Outline.ExampleSelfContainer | src/webview/SymbolOutline.tsx:18-30 | a duplicate `x` that names itself as container puts the second `x` at the top and in its own children; the first `x` gets nothing |
| Outline.OutlineRow.constructor | src/webview/SymbolOutline.tsx:38 | a row starts open exactly when its level is below 2 |
| Outline.OutlineRow.ChildLevel | src/webview/SymbolOutline.tsx:56 | a child is rendered at its parent's level plus one, which is below the auto-expand bound of 2 exactly when the parent is at the top level |
| Outline.OutlineRow.ChildRow | src/webview/SymbolOutline.tsx:56 | the row of a child holds that child at `ChildLevel()` and starts open exactly when its parent row is at level 0, so only the first two levels expand |
| Outline.OutlineRow.Toggle | src/webview/SymbolOutline.tsx:45 | the arrow, present only for a node with children, flips `open` and so flips whether the children are shown |
| Extension.Normalize | src/extension.ts:70-75 | a record copies name and kind, has no users, and has the raw container or `''` when that is missing or empty |
| Extension.NormalizeAll | src/extension.ts:70-75 | normalisation keeps the length and order of the host's list |
| Extension.GetAllSymbols | src/extension.ts:62-80 | a list is normalised; a non-list gives `[]` silently; a failure gives `[]` and exactly one notification, `Failed to scan symbols: ` followed by the message or the rendered error |
| Extension.ScanExample | src/extension.ts:62-75 | one host entry `foo`/11 with an empty container gives `[{foo, 11, '', []}]` |
| Extension.ErrorText | src/extension.ts:77 | the text after the prefix: the error's message when it is non-empty, and the rendered error otherwise; `GetAllSymbols` states the whole notification |
| Extension.NameIs | src/extension.ts:117 | the `find` predicate of the first lookup holds of a stored symbol exactly when its name equals the requested name |
| Extension.FindFirst | src/extension.ts:117 | `find` gives the first element satisfying the predicate, or nothing when none does |
| Extension.Matches | src/extension.ts:123 | a host entry denotes a stored symbol when name, kind and defaulted container are equal; `NormalizedMatchesItsSource` shows every record matches its raw entry |
| Extension.NavigateTo | src/extension.ts:124-130 | a match with a location opens its document and selects its range when it has one; a match without a location does nothing |
| Extension.Reveal | src/extension.ts:116-131 | a reveal navigates only for a truthy name that some stored symbol has and a host answer that is a list, and only to the location of one of that list's entries; `RevealSpec` states which entry, in both directions |
| Extension.RevealSpec | src/extension.ts:116-131 | a reveal navigates only along its chain: a truthy name, the first stored symbol with it, a host list, and its first entry with equal name, kind and defaulted container. It then opens that entry's location and selects its range when it has one. When any link fails, or the entry has no location, nothing happens |
| Extension.NormalizedMatchesItsSource | src/extension.ts:123 | a normalised record matches the raw entry it came from |
| Extension.RevealAfterScan | src/extension.ts:116-124 | just after a scan, revealing a scanned name navigates when the host answers with the same list and its entries have locations |
| Extension.KindName | src/extension.ts:90 | every kind name is non-empty |
| Extension.KindMap | src/extension.ts:89-91 | the provider's table binds `String(k)` to the name of kind `k` for each `k` from 0 to 25; `KindMapEntries` adds that it has no other keys |
| Extension.KindMapEntries | src/extension.ts:89-91 | the key set of `kindMap` is exactly `String(0)` to `String(25)`, so no other string is a key; `String(k)` is a key exactly for `k` from 0 to 25, bound to kind `k`'s name |
| Extension.KindLabels | src/extension.ts:89-91 | with that table, kinds 0 to 25 show their names and every other kind shows its number |
| Extension.VersionOf | src/extension.ts:92-96 | the version is the package's version when it is a non-empty string, and `dev` otherwise |
| Extension.SymbolViewProvider.constructor | src/extension.ts:85-97 | a new provider has no view, no symbols, an empty filter, is not loading, and has posted nothing |
| Extension.SymbolViewProvider.Snapshot | src/extension.ts:153-160 | the `data` payload: the current symbols, filter and loading flag, the kind table and the version |
| Extension.SymbolViewProvider.ResolveView | src/extension.ts:99-100 | attaching the view changes nothing else |
| Extension.SymbolViewProvider.SendData | src/extension.ts:151-162 | with no view nothing is posted; otherwise one data message whose symbols, filter, kind table, version and loading flag are the current ones |
| Extension.SymbolViewProvider.Show | src/extension.ts:140-144 | replaces the symbols and the filter (`''` by default), keeps the loading flag, then sends |
| Extension.SymbolViewProvider.SetLoading | src/extension.ts:146-149 | changes only the loading flag, then sends |
| Extension.SymbolViewProvider.Receive | src/extension.ts:106-135 | `getTheme` posts the theme. `filter` sets the filter to the query or `''`, passes it to the callback when there is one, and sends; the symbols stay. `reveal` posts nothing and changes nothing, and navigates as `Reveal` says. Any other message does nothing |
| JsDoc.JoinLines | src/webview/getSymbolJSDoc.ts:6 | `join('\n')` gives `''` for no lines and the line itself for one line; it starts with the first line and is as long as the lines plus the separators |
| JsDoc.SplitJoin | src/webview/getSymbolJSDoc.ts:6 | the join of a non-empty list of lines without line feeds splits back into the same lines |
| JsDoc.JoinSplit | src/webview/getSymbolJSDoc.ts:6 | every text is the join of its line-feed-separated pieces |
| JsDoc.GetSymbolJSDoc | src/webview/getSymbolJSDoc.ts:3-10 | `null`/`undefined` gives `''`; any non-empty result is the text held by one of the symbol's doc properties |
| JsDoc.JsDocTakesPriority | src/webview/getSymbolJSDoc.ts:5-6 | a string `jsDoc` is returned as it is, an array `jsDoc` is joined, and `documentation` is then ignored |
| JsDoc.DocumentationFallback | src/webview/getSymbolJSDoc.ts:7-9 | without a string or array `jsDoc`: a string `documentation`, else an object's string `value`, else `''` |
| JsDoc.ArrayJsDoc | src/webview/getSymbolJSDoc.ts:6 | an empty array gives `''`, a one-line array gives its line, and the join of a non-empty list of lines without line feeds splits back into them |
| Graph.Truncate | src/webview/SymbolGraph.tsx:26 | a doc of at most 120 characters is unchanged; a longer one becomes its first 120 characters and `...`, 123 in all |
| Graph.TruncateIdempotent | src/webview/SymbolGraph.tsx:26 | truncating twice is truncating once |
| Graph.DocView | src/webview/SymbolGraph.tsx:31-43 | there is no doc area for an empty doc. The button exists exactly for docs over 120 characters and reads `Hide JSDoc` or `Show JSDoc` by the flag. The text shown is the full doc when the flag is set and the truncated doc otherwise |
| Graph.ToggleDoc | src/webview/SymbolGraph.tsx:37 | the button flips `showFullDoc` |
| Graph.ToggleCycle | src/webview/SymbolGraph.tsx:24-40 | a new card shows the cut text with `Show JSDoc`; one press shows the full doc with `Hide JSDoc`; a second press restores the start |
| Graph.ShortDocIgnoresFlag | src/webview/SymbolGraph.tsx:26-34 | a short doc is shown whole, without a button, whatever the flag |
| Graph.Card | src/webview/SymbolGraph.tsx:23-46 | a card shows the symbol's name, its kind label, and the doc area of its doc text |
| Graph.AsValue | src/extension.ts:70-75 | a modelling assumption, not a proved fact: the symbol object a card receives is a normalised record, which carries only `name`, `kind`, `containerName` and `usedBy`, so it has neither a `jsDoc` nor a `documentation` property. No lemma connects it to `Normalize` |
| Graph.NormalizedCardHasNoDoc | src/webview/SymbolGraph.tsx:25 | a card for a normalised record, which has no doc properties, shows no doc area |
| Graph.CardKindWithoutTable | src/webview/SymbolGraph.tsx:30 | with the empty kind table the webview actually has, a card labels every kind by its number |
| Graph.SelectNodes | src/webview/SymbolGraph.tsx:49-53 | no symbols draw nothing; otherwise `symbols[0]` is the centre and the ring is the next `min(8, n-1)` symbols in input order |
| Graph.SelectionIsPrefix | src/webview/SymbolGraph.tsx:52-53 | the drawn cards are the first `min(9, n)` symbols, centre first; symbols after the ninth never change the layout |

## Left out

- The host calls (`executeWorkspaceSymbolProvider`, `openTextDocument`, `showTextDocument`, `revealRange`, `showErrorMessage`, `postMessage`) are not made. Their results are inputs, and their effects are recorded as values (`RevealAction`, `Scan.errorShown`, `posted`).
- Asynchrony is not modelled: the `await`s, the debounce timer and the re-entry guard of the refresh command in `src/extension.ts:14-24`, and the 100 ms delayed first send at `src/extension.ts:137`. Each handler runs as one atomic step.
- `activate`/`deactivate`, command and provider registration, event subscriptions and `getReactHtml` (`src/extension.ts:7-56,164-183`) are wiring with no logic to prove.
- `src/webview/App.tsx`, `src/webview/Toolbar.tsx`, `src/webview/SymbolTable.tsx` and `src/webview/index.tsx` are not part of this model. They are rendering, hook state, DOM listeners and a floating-point zoom clamp. `SymbolTable` is never mounted.
- The radial coordinates in `src/webview/SymbolGraph.tsx:62-64,84-86` use `Math.cos`/`Math.sin` on floats. They are not modelled; only the choice and order of the cards is.
- `webpack.webview.config.js` is build configuration.
- The extension and vendor-directory filter and the "used by" join are not in the code, so they are not modelled either.
- JavaScript object-key quirks are not modelled. The outline dictionary is a plain finite map, so a name such as `toString` has no inherited entry.
- React keys and component identity are not modelled. Node identity is the position of the symbol that created the node.
- Extension.RawSymbol: the raw entry's name is a string, its kind an integer and its container an optional string. Host entries of any other shape are not modelled: kinds that are not integers (`NaN`, `1.5`) are not modelled, and `String(kind)` is modelled as plain decimal digits, which JavaScript produces only for magnitudes below 10^21 (beyond that it switches to exponent form, as in `1e+21`).
- Extension.Reveal: if the host query throws inside the handler, the source's promise rejects and the handler stops. The model gives `NoNavigation` for that case, which has the same visible effect. A `location` without a `uri` is not modelled.
- Extension.Thrown: a thrown value is given by its `message` (`''` when missing or falsy) and its `String(e)` rendering. How JavaScript computes those is not modelled.
- JsDoc.JsDocLines: the elements of an array `jsDoc` are strings. The joining of non-string elements (`null` joins as `''`, numbers as their decimal form) is not modelled.
- JsDoc.DocObject: a truthy `documentation` that is an object with a string `value` is told apart from every other truthy value. Values with prototype-inherited `value` properties fall under `DocOther`.
- Graph.Truncate: lengths are counted in Dafny characters. JavaScript counts UTF-16 code units, so a doc with characters outside the basic plane is cut at a different place.
- Symbols.Symbol: `usedBy` is optional in the webview's type. It is a sequence here because the host side always sets it to `[]`.
- Outline.OutlineRow: the per-row `open` state is a class. The recursive rendering of rows is not modelled beyond `ChildRow`, which makes one child's row at `ChildLevel()`; the indentation, the kind label and the doc marker of a row are not modelled.
