# DocHub SDK core, modelled in Dafny

The DocHub SDK is mostly TypeScript interface declarations for extensions of
the DocHub documentation portal. This project models the parts that hold logic:

- `getRelativePath`: the relative path between two DocHub URIs. The URIs may
  carry an `@`-separated repository/branch prefix (module `RelativePath`).
- `getIconByURI`: the extension-to-icon table (module `Icons`).
- The root-manifest (`dochub.yaml`) schemas. The `DocHubYamlPatterns` regular
  expressions become character-class and length predicates (module
  `ManifestPatterns`). The three schemas run through a small interpreter of
  JSON Schema draft-07 (`type`, `pattern`, `required`, `properties`,
  `patternProperties`, `additionalProperties`). That interpreter is proved
  equal to a direct definition of a valid manifest (module `ManifestSchema`).
- The data-set source shapes of `interfaces/jsonata.ts`: inline query, query
  file, debugger variable read. Also the profile record, the query object and
  the debugger actions (module `Jsonata`). The older copy in
  `interfaces/datasets.ts` is module `DataSets`, with a proved embedding into
  the newer declaration.
- The refresh logic of document components in `classes/vue2/Documents.ts`:
  - the duplicate-free AI context registry (module `AiContext`);
  - the 50 ms debounce of `onRefresh`, as a one-slot timer over an abstract
    clock (module `Debounce`);
  - `refreshFilesFollow`, `doRefresh`, `getMetaEdit` and `destroyed` (module
    `Documents`).

Foreign calls become parameters:
- `new URL` in `getRelativePath` is a parser yielding protocol, host and pathname.
- `getIconByURI` takes the pathname.
- DataLake calls (`getURIForPath`, `resolveURI`, `pullFile`,
  `resolveDataSetProfile`) are fields of `Documents.Lake`. `pullFile` yields the
  response's `data`, or nothing for a falsy response.
- The component's overridable hooks (`getType`, `processingFollowFiles`,
  `processingData`, `processingCustom`) are fields of `Documents.Hooks`. So are
  ajv validation and Mustache rendering. The rendering is given as the outcome
  its Promise settles to.
- `followFile`/`unfollowFile` calls are recorded in the outcome, not applied to
  a DataLake.

In these places the model follows the code:
- `destroyed` never clears the debounce timer, so a refresh already armed still
  runs (`Debounce.DestroyDoesNotCancel`).
- A pathname without any `.` is looked up whole (`Icons.ExtensionWithoutDot`).
  It yields no icon only when it is not itself a table key. For example, a
  hierarchical pathname starting with `/` yields none (`Icons.NoDotNoIcon`).
  An empty pathname falls back to `mdi-file`.
- With three or more `@`-parts, `getRelativePath` compares only their number
  (`RelativePath.LongStructureComparesLastPartOnly`). A `repo@branch@/path` URI
  has three, so its repository and branch are never compared.
- `refreshFilesFollow(true)` and a failed `refreshFilesFollow` leave
  `followFiles` holding the list they just unfollowed.
- `doRefresh` rejects any falsy `source`, such as `null` from a YAML key with no
  value, before it makes a DataLake call. Only a string `source` is followed as a file.
- `getMetaEdit` takes its icons from `getIconByURI` as written, inherited names
  included.

## Model

| member | source | states |
|---|---|---|
| RelativePath.GetRelativePath | helpers/path.ts:4-18 | an undefined base throws; an unparsable URL throws only after the `@`-structures agree |
| RelativePath.RelateTails | helpers/path.ts:13-18 | the right-most `@`-parts (or `/`) are parsed, and the call throws exactly when one of them does not parse |
| RelativePath.Segments | helpers/path.ts:20-21 | path segments are non-empty and hold no `/` |
| RelativePath.SegmentsOfJoin | helpers/path.ts:20-21 | splitting a `/`-join of proper segments gives them back |
| RelativePath.SlashesDoNotMatter | helpers/path.ts:20-21 | repeated, leading and trailing `/` do not change the segments |
| RelativePath.CommonPrefixLength | helpers/path.ts:23-27 | `commonLength` is the longest common prefix: within both lengths, equal before it, different at it |
| RelativePath.ShapeMismatchKeepsTarget | helpers/path.ts:5-10 | different numbers of `@` return the target unchanged |
| RelativePath.RepoMismatchKeepsTarget | helpers/path.ts:7-10 | one `@` each with different repository parts returns the target unchanged |
| RelativePath.LongStructureComparesLastPartOnly | helpers/path.ts:7-14 | with three or more `@`-parts the result depends only on the last parts |
| RelativePath.OriginMismatchFails | helpers/path.ts:16-18 | a different protocol or host throws |
| RelativePath.RelateShape | helpers/path.ts:28-40 | the result is `max(0, base - common - 1)` copies of `..` followed by the target's segments past the common prefix, joined by single `/` with none leading or trailing |
| RelativePath.SameSegmentsGiveEmpty | helpers/path.ts:23-39 | paths with equal segments relate by the empty string |
| RelativePath.SelfIsEmpty | helpers/path.ts:4-40 | a parsable URI relative to itself is the empty string |
| RelativePath.CrossRepositoryRelatesAsWritten | helpers/path.ts:5-10 | as written, `a@main@/x` and `b@dev@/x` relate by the empty path; corrected, the target comes back unchanged |
| RelativePath.GetRelativePathCorrected | helpers/path.ts:4-10 | corrected: any difference in the repository/branch parts returns the target unchanged |
| RelativePath.CorrectedAgreesUpToOneAt | helpers/path.ts:5-10 | with at most one `@` in each URI, the corrected comparison is the one as written |
| Icons.IconByPathnameAsWritten | helpers/icons.ts:5-24 | as written: the listed icon exactly when the key after the last `.` (or `default`) is a table key, an inherited member exactly when it names one |
| Icons.IconByPathname | helpers/icons.ts:5-24 | corrected: the listed icon exactly when the key is a key of the corrected table, never an inherited member |
| Icons.ExtensionAfterLastDot | helpers/icons.ts:24 | the key is the text after the last `.` |
| Icons.ExtensionWithoutDot | helpers/icons.ts:24 | without a `.` the whole pathname is the key |
| Icons.ExtensionIsDotFreeSuffix | helpers/icons.ts:24 | the key is a `.`-free suffix of the pathname |
| Icons.ListedExtensions | helpers/icons.ts:7-23 | each listed extension a parsed pathname can end in maps to exactly its listed icon |
| Icons.SharedIcons | helpers/icons.ts:10-22 | `yml`/`yaml` share an icon, `html`/`htm` share one, `md` is Markdown |
| Icons.EmptyExtensionIsDefault | helpers/icons.ts:8-24 | a trailing `.` or an empty pathname gives `mdi-file` |
| Icons.UnlistedExtensionHasNoIcon | helpers/icons.ts:24 | any other non-empty extension that is not an inherited name gives no icon |
| Icons.NoDotNoIcon | helpers/icons.ts:24 | a `/`-rooted pathname without `.` gives no icon |
| Icons.CaseSensitive | helpers/icons.ts:7-24 | `MD` and `JSON` are not `md` and `json` |
| Icons.InheritedKeyLeaks | helpers/icons.ts:7-24 | as written, `/a.constructor` yields an inherited `Object.prototype` member |
| Icons.CorrectedAgreesOnOwnKeys | helpers/icons.ts:7-24 | the lookup as written and the corrected one differ exactly on inherited names and on `c#`/`cs` |
| Icons.CSharpIconUnreachable | helpers/icons.ts:6-24 | as written, no pathname `new URL` yields gets `mdi-language-csharp`, and `/Program.cs` gets no icon |
| Icons.CSharpFilesGetIcon | helpers/icons.ts:23-24 | corrected, a `.cs` file gets `mdi-language-csharp` |
| ManifestPatterns.VersionFromGroups | schemas/dochub-yaml.ts:11 | three 1-6 digit groups joined by `.` form a version |
| ManifestPatterns.VersionHasGroups | schemas/dochub-yaml.ts:11 | every version is three such groups and nothing else |
| ManifestPatterns.StructSpaceFromSegments | schemas/dochub-yaml.ts:15 | `/`-prefixed non-empty segments free of `/`, `\|`, `^`, LF, CR and tab form a location |
| ManifestPatterns.StructSpaceHasSegments | schemas/dochub-yaml.ts:15 | every location has that form |
| ManifestPatterns.StructSpaceConcat | schemas/dochub-yaml.ts:15 | locations are closed under concatenation |
| ManifestPatterns.StructSpaceEndsInSegment | schemas/dochub-yaml.ts:15 | a location never ends in `/` |
| ManifestSchema.DependenciesMeaning | schemas/dochub-yaml.ts:22-33 | dependencies: only package-ID keys, each with a string of 1-128 single-line characters |
| ManifestSchema.SpaceMeaning | schemas/dochub-yaml.ts:42-57 | a structure entry needs a string `title` and a `location` matching the location pattern |
| ManifestSchema.StructureMeaning | schemas/dochub-yaml.ts:38-60 | structure keys must be single-line, every entry a valid structure entry |
| ManifestSchema.PackageMeaning | schemas/dochub-yaml.ts:73-96 | a package needs `version`, `name`, `description` matching their patterns; `dependencies`/`structure` are checked when present |
| ManifestSchema.PackagesMeaning | schemas/dochub-yaml.ts:70-99 | every `$package` key is a package ID and every entry a valid package |
| ManifestSchema.ManifestMeaning | schemas/dochub-yaml.ts:65-102 | validating against `dochubYaml` holds exactly for an object with a valid `$package` |
| ManifestSchema.RootRequiresPackage | schemas/dochub-yaml.ts:101 | a root without `$package` is rejected |
| ManifestSchema.RootKeysUnrestricted | schemas/dochub-yaml.ts:65-102 | adding or replacing another root key keeps a manifest valid |
| ManifestSchema.PackageKeysAreIds | schemas/dochub-yaml.ts:72-98 | a key under `$package` that is not a package ID is rejected |
| ManifestSchema.PackageRequiredFields | schemas/dochub-yaml.ts:76-95 | a valid package has a matching version, name and description |
| ManifestSchema.StructureKeyIsOneLine | schemas/dochub-yaml.ts:16 | a structure key containing a line terminator is rejected |
| ManifestSchema.SampleManifestIsValid | schemas/dochub-yaml.ts:65-102 | a concrete manifest with a dependency and a structure entry validates |
| Jsonata.InlineQueryForm | interfaces/jsonata.ts:19 | inline queries are exactly `(…)` and `jsonata(…)` |
| Jsonata.QueryFileForm | interfaces/jsonata.ts:24 | query files are exactly `….jsonata` |
| Jsonata.QueryNotFile | interfaces/jsonata.ts:19-24 | no string is both an inline query and a query file |
| Jsonata.VariableReadNotQuery | interfaces/jsonata.ts:106-110 | a `$…` read is never also an inline query |
| Jsonata.DollarReadsVariable | interfaces/jsonata.ts:106-110 | `$name` reads the variable `name` |
| Jsonata.ClassifyDebuggerQuery | interfaces/jsonata.ts:106-112 | a debugger query is a variable read of the rest after `$`, or an inline query evaluated as is |
| Jsonata.ClassifyDebuggerExpression | interfaces/jsonata.ts:106-110 | a query object given to the debugger is evaluated as its inline query; a string is classified as above |
| Jsonata.QueryObjectIsEvaluated | interfaces/jsonata.ts:44-70 | a constructed query object and its query string are treated alike by the debugger |
| Jsonata.NewQueryObject | interfaces/jsonata.ts:44-65 | the query object's value is its query, and `__uri__`/`__path__` return the constructor's `uri`/`path` |
| Jsonata.QueryObjectIsInline | interfaces/jsonata.ts:53-70 | a query object classifies as an inline query, like its string |
| Jsonata.Kind | interfaces/jsonata.ts:67-79 | the source kind is inline query, query file or literal exactly by shape |
| Jsonata.ParseAction | interfaces/jsonata.ts:99-104 | a parsed action prints back as the same string |
| Jsonata.ActionRoundTrip | interfaces/jsonata.ts:99-104 | the actions are exactly `run`, `next`, `into`, `stop`, and each round-trips |
| DataSets.SourceKind | interfaces/datasets.ts:12-24 | the older shapes classify sources the same way |
| DataSets.UpgradeSource | interfaces/datasets.ts:8-24 | an older source is a newer source, never a query object |
| DataSets.Upgrade | interfaces/datasets.ts:24-42 | upgrading keeps `origin` presence and the source kind |
| DataSets.UpgradeRoundTrip | interfaces/datasets.ts:28-42 | reading an upgraded profile back gives the profile |
| DataSets.DowngradeRoundTrip | interfaces/datasets.ts:28-42 | a newer profile without query objects is the upgrade of its reading |
| AiContext.Register | classes/vue2/Documents.ts:43-45 | registering keeps the list as a prefix, adds the document, and keeps it duplicate-free |
| AiContext.Unregister | classes/vue2/Documents.ts:46-48 | unregistering removes exactly that document and keeps the list duplicate-free |
| AiContext.RegisterIdempotent | classes/vue2/Documents.ts:43-45 | registering twice is registering once |
| AiContext.UnregisterKeepsOrder | classes/vue2/Documents.ts:46-48 | the other documents stay in their original order |
| AiContext.UnregisterAbsent | classes/vue2/Documents.ts:46-48 | unregistering an unlisted document changes nothing |
| AiContext.UnregisterUndoesRegister | classes/vue2/Documents.ts:43-48 | unregister undoes registering a new document |
| Debounce.OnRefresh | classes/vue2/Documents.ts:346-354 | each call leaves exactly one timer armed, 50 ms ahead |
| Debounce.Wait | classes/vue2/Documents.ts:350-353 | an armed timer fires once when its deadline passes, then clears |
| Debounce.BurstArmsOnce | classes/vue2/Documents.ts:346-354 | signals less than 50 ms apart never fire, and one timer stays armed |
| Debounce.BurstRefreshesOnce | classes/vue2/Documents.ts:346-354 | N signals within the window, then 50 ms of quiet, give exactly one `doRefresh` |
| Debounce.RefreshesBoundedBySignals | classes/vue2/Documents.ts:346-354 | over any event sequence, refreshes run plus timers still armed grow by at most the number of signals |
| Debounce.DestroyDoesNotCancel | classes/vue2/Documents.ts:129-134 | a refresh armed before `destroyed` still runs |
| Documents.Destroyed | classes/vue2/Documents.ts:129-134 | destroying unfollows every followed file and leaves the registry; the timer is untouched |
| Documents.RefreshFilesFollow | classes/vue2/Documents.ts:300-343 | every followed file is unfollowed first; with `disable` nothing is followed and the URIs are cleared; a throw follows nothing and keeps the old list; without a template no template URI is kept; at most one of template and source is set, and exactly that URI (or none) passes through `processingFollowFiles` and is followed |
| Documents.Follow | classes/vue2/Documents.ts:337-342 | exactly the files `processingFollowFiles` returns for the given list are remembered and followed; nothing else in the state changes |
| Documents.FieldPathAppends | classes/vue2/Documents.ts:317-320 | `[...$base.split('/'), 'template'].join('/')` is `$base/template` |
| Documents.BaseIsLastUri | classes/vue2/Documents.ts:314-316 | the base URI is the last URI for `$base`; none, or an empty one, throws |
| Documents.TemplateTakesPrecedence | classes/vue2/Documents.ts:319-336 | with a template the source is not resolved and only the template is followed |
| Documents.TemplateDotIsDefiningFile | classes/vue2/Documents.ts:319-326 | a `.` template is the defining file itself, anything else is resolved against it |
| Documents.SourceFollowedOnlyForContent | classes/vue2/Documents.ts:327-336 | the source is resolved only without a template, for a string source of a `content` document |
| Documents.SourceResolvesAgainstDefiningFile | classes/vue2/Documents.ts:327-335 | a `.` source is the file defining `source`, or the base file; any other string source is resolved against that file |
| Documents.Caught | classes/vue2/Documents.ts:289-296 | a thrown error is recorded, the content dropped, pending cleared |
| Documents.CaughtOutcome | classes/vue2/Documents.ts:289-296 | the catch ends with a `processingData(undefined)` call after the calls made before the throw, and delivers nothing |
| Documents.Refresh | classes/vue2/Documents.ts:241-297 | `isPending` always ends false; a falsy source sets an error before any follow or resolution; `custom` only calls `processingCustom`; `data` pulls no file; a missing source calls `processingData(undefined)` once; a `processingData(undefined)` call means the content was dropped with an error set; every newly caught error ends with that call |
| Documents.DoRefresh | classes/vue2/Documents.ts:241-297 | as written: the same, and whatever reaches `processingContent` is also kept as `contentData` with the error cleared |
| Documents.DoRefreshAwaited | classes/vue2/Documents.ts:274-287 | corrected: what reaches `processingContent` is always a settled value, never a pending rendering |
| Documents.Load | classes/vue2/Documents.ts:252-296 | loading never leaves the document pending, success always leaves content, only an awaited rendering is delivered settled, and a falsy template response counts as no template, a falsy source response cannot be rendered, and a caught throw (including `null` template data at `toString()`) ends with `processingData(undefined)` |
| Documents.FalsySourceStopsEarly | classes/vue2/Documents.ts:243 | a missing, `null`, `false`, `0` or empty `source` sets the source error with no follow, pull or resolution |
| Documents.ContentPullsSource | classes/vue2/Documents.ts:252-287 | a `content` document without a template pulls exactly its source and delivers the response's data without calling `processingData`; a falsy response is "Can not render document", and it and a failed pull are caught with `processingData(undefined)` |
| Documents.FalsyTemplateCannotRender | classes/vue2/Documents.ts:252-261 | a falsy template response counts as no template: with no source URI beside the template the document cannot be rendered, nothing is resolved, and the catch runs |
| Documents.ValidationFailureStops | classes/vue2/Documents.ts:252-270 | for a `data` document or a `content` document with a template, data failing the schema records the error, calls no `processingData`, renders nothing, keeps the old content, and has pulled only the template |
| Documents.DataKeepsResolvedData | classes/vue2/Documents.ts:255-273 | a valid `data` document keeps the data resolved with its `params` against its base URI, passes exactly that data to `processingData` once, and delivers nothing |
| Documents.TemplateRendersProcessedData | classes/vue2/Documents.ts:252-287 | as written, for non-`null` template data, the template is pulled and the pending rendering of the processed data is delivered and kept, with the error cleared |
| Documents.NullTemplateDataThrows | classes/vue2/Documents.ts:274-296 | `null` template data throws before rendering, awaited or not: the error is recorded, the content dropped, nothing delivered, and `processingData` gets the data and then `undefined` |
| Documents.RenderOutcomeIsNeverObserved | classes/vue2/Documents.ts:275-286 | as written, how the rendering settles never changes the outcome |
| Documents.LoadIgnoresRender | classes/vue2/Documents.ts:274-287 | as written, the loading step after the follow does not depend on how the rendering settles |
| Documents.AwaitedRenderIsShown | classes/vue2/Documents.ts:275-296 | corrected, for non-`null` template data: the rendered text is delivered and kept, and a rejected rendering becomes the error, followed by `processingData(undefined)` |
| Documents.MetaTitle | classes/vue2/Documents.ts:158 | the title is the profile title, else `$base`, else `$undefined$` |
| Documents.Entries | classes/vue2/Documents.ts:161-167 | one entry per file, titled with its URI and iconed by `getIconByURI` as written |
| Documents.GetMetaEdit | classes/vue2/Documents.ts:154-169 | entries are the followed files or else the URIs of `$base`, each titled by its URI and iconed by `getIconByURI`; the icon is that of a truthy `baseURI`, else of the first remembered file; an empty `followFiles` array receives those URIs |
| Documents.MetaIconFollowsAliasing | classes/vue2/Documents.ts:155-159 | without a base URI, the icon comes from the first URI pushed into an empty `followFiles`, or from `undefined` |

## Findings

| source | as written | input that shows it | evidently intended | confidence | as-written member | corrected member |
|---|---|---|---|---|---|---|
| helpers/icons.ts:7-24 | the key indexes a plain object literal, so names inherited from `Object.prototype` are found too | pathname `/a.constructor` yields the `Object` constructor function instead of `undefined` | only the listed extensions yield a value | not executed; high | Icons.IconByPathnameAsWritten (shown by Icons.InheritedKeyLeaks) | Icons.IconByPathname (Icons.CorrectedAgreesOnOwnKeys) |
| helpers/icons.ts:23 | the C# icon is keyed `c#`, but a `#` in a URI starts its fragment, so no pathname ends in `c#` | `file.c#` has pathname `/file.c`; `/Program.cs` gets no icon | C# sources (`.cs`) get `mdi-language-csharp` | not executed; medium | Icons.IconByPathnameAsWritten (shown by Icons.CSharpIconUnreachable) | Icons.IconByPathname (Icons.CSharpFilesGetIcon) |
| helpers/path.ts:7-10 | the repository/branch part is compared only when a URI has exactly two `@`-parts | base `a@main@/x`, target `b@dev@/x` give `""` | URIs of different repositories or branches return the target unchanged | not executed; medium | RelativePath.GetRelativePath (shown by RelativePath.CrossRepositoryRelatesAsWritten) | RelativePath.GetRelativePathCorrected (RelativePath.CorrectedAgreesUpToOneAt) |
| classes/vue2/Documents.ts:275-286 | Mustache's `render` returns a Promise, and it is not awaited | a template whose rendering rejects: `error` is cleared and `contentData` holds the Promise | await the rendering, so its text is shown and a rejection is caught | not executed; medium | Documents.DoRefresh (shown by Documents.TemplateRendersProcessedData, Documents.RenderOutcomeIsNeverObserved) | Documents.DoRefreshAwaited (Documents.AwaitedRenderIsShown) |

## Left out

- URL parsing (`new URL`) in `getRelativePath` and `getIconByURI` is a parameter. Normalisation of dot segments and percent-encoding is not modelled.
- Lengths in the manifest patterns count Unicode scalar values, as a regular expression with the `u` flag does. Without that flag, a character outside the Basic Multilingual Plane counts as two.
- RelativePath.RelateShape: does not claim that resolving the result against the base gives the target. The `..` count treats the last base segment as a file, and the code promises no round trip.
- The ajv validator and its Russian error messages are the `schemaAccepts` oracle. The error text is reduced to `Invalid`.
- Mustache rendering, `resolveDataSetProfile`, `pullFile`, `getURIForPath` and `resolveURI` are oracles. No DataLake behaviour is modelled.
- Documents.RefreshFilesFollow: `getURIForPath`, `resolveURI` and `processingFollowFiles` never throw in the model, and the hook always returns a list. In the code, a rejection reaches the `catch` of `doRefresh`, and an `undefined` list follows nothing.
- Documents.Load: compiling the schema with ajv never throws in the model.
- Documents.Entries: `new URL` inside `getIconByURI` never throws in the model; `pathnameOf` is total.
- Documents.DoRefresh: a refresh is one atomic step. In the code, its awaits let a second `doRefresh`, started 50 ms after a later change, interleave with the first. The first run's `finally` then clears `isPending` while the second still runs, and a run that finishes later overwrites `contentData`.
- Documents.GetMetaEdit: a `null` answer from `getURIForPath` is read as an empty list; in the code the spread of `null` throws.
- `processingContent` is called without `await`. Its own failure is not caught by `doRefresh`, and the model records only that it was called.
- `pullAIContext` and `AIDocumentContextProvider.pullPartitions` are left out: string formatting for the AI prompt and asynchronous URI lookups.
- `openEditor`, `freezeView`/`unfreezeView` and the Vue watchers are left out: UI wiring. The watchers are the `Signal` event of `Debounce`.
- `Debounce`: timers fire as soon as the clock reaches their deadline. Event-loop scheduling delays are not modelled.
- The debugger call stack (`IDocHubDataLakeDebuggerCallStackItem`, `IDocHubDataLakeDebuggerContext`) and the JSONata engine interfaces are left out: they are declarations without behaviour.
- A `DocHubJSONataQueryObject`'s `String` methods other than its value are left out.
- `classes/errors.ts` is not part of this model. Its problem error copies `data.uid` into `title` and emits itself as a side effect.
- The interface-only files (DataLake, protocols, providers, collaborations, problems, AI), the CLI, the other Vue component classes, `helpers/proxy.ts` and `index.ts` are not part of this model.
