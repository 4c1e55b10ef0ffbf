/**
 * The refresh logic of a document component (`DocHubDocumentProto`):
 * which files it follows (`refreshFilesFollow`), how it loads and checks its
 * content (`doRefresh`), and the editing metadata it reports (`getMetaEdit`).
 *
 * DataLake calls and the component's overridable hooks are oracle fields of
 * `Lake` and `Hooks`. Follow and unfollow calls are recorded in the outcome
 * rather than applied to a DataLake model.
 */
module Documents {
  import opened Common
  import opened Strings
  import opened Json
  import Icons
  import Debounce
  import AiContext

  /** `DocHubDocumentType` */
  datatype DocType = Content | DataDoc | Custom

  /** `IDocHubPresentationsParams`: the presentation's input parameters. */
  type Params = map<string, string>

  /** The fields of `IDocHubPresentationProfile` the component reads. */
  datatype DocProfile = DocProfile(
    base: string,                    // `$base`, a DataLake path
    title: Option<string>,
    template: Option<string>,
    source: Option<Json>)            // a string, a DataLake request object, or whatever the YAML holds

  /** Why a refresh failed; `Thrown` carries an error raised by an oracle. */
  datatype DocError =
    | MissingSource                  // 'Document must have field "source" in profile!'
    | NoBaseUri(basePath: string)
    | NoTemplateUri(templatePath: string)
    | NoSourceUri(sourcePath: string)
    | CannotRender(base: string)
    | Invalid                        // schema validation failed; the validator's errors are not modelled
    | NullTemplateData               // `template.data.toString()` on `null` throws a `TypeError`
    | Thrown(cause: string)

  /** DataLake calls. */
  datatype Lake = Lake(
    uriForPath: string -> seq<string>,                          // `getURIForPath`, `null` read as `[]`
    resolveUri: (string, string) -> string,                     // `resolveURI(base, relative)`
    pullFile: string -> Result<Option<Json>, string>,           // `pullFile(uri)`: the response's `data`, `None` for a falsy response
    resolveProfile: (DocProfile, Params, Option<string>) -> Result<Json, string>)  // `resolveDataSetProfile(profile, {params, baseURI})`

  /** The hooks a concrete document overrides. */
  datatype Hooks = Hooks(
    docType: DocType,                                  // `getType()`
    followFilter: seq<string> -> seq<string>,          // `processingFollowFiles`
    schemaAccepts: Json -> bool,                       // ajv with `getSchemaData()`
    processData: Json -> Result<Json, string>,         // `processingData`
    processCustom: Option<string>,                     // `processingCustom`: `Some(e)` when it throws `e`
    render: (Json, Json) -> Result<string, string>)    // how Mustache's `render` Promise settles for template data and data

  /** What `result.data` holds when it reaches `processingContent` and `contentData`. */
  datatype Content =
    | Loaded(data: Json)                          // a value
    | PendingRender(template: Json, data: Json)   // the Promise of Mustache's rendering, not yet settled

  /** The component fields the refresh logic reads and writes. */
  datatype DocState = DocState(
    followFiles: Option<seq<string>>,
    baseUri: Option<string>,
    templateUri: Option<string>,
    sourceUri: Option<string>,
    error: Option<DocError>,
    isPending: bool,
    contentData: Option<Content>)

  /** JavaScript truthiness of an optional string: present and non-empty. */
  predicate Truthy(s: Option<string>)
  {
    s.Some? && s.value != ""
  }

  /** JavaScript truthiness of a parsed value: everything but `null`, `false`, `0` and `""`. */
  predicate JsonTruthy(j: Json)
  {
    match j
    case JNull => false
    case JBool(b) => b
    case JNumber(n) => n != 0.0
    case JString(t) => t != ""
    case _ => true
  }

  /** `a || b` on optional strings. */
  function Or(a: Option<string>, b: string): (r: string)
    ensures Truthy(a) ==> r == a.value
    ensures !Truthy(a) ==> r == b
  {
    if Truthy(a) then a.value else b
  }

  // ---------------------------------------------------------------------------
  // refreshFilesFollow

  /** The result of `refreshFilesFollow`: the new state, the DataLake calls made, and the error if it threw. */
  datatype FollowOutcome = FollowOutcome(
    state: DocState,
    unfollowed: seq<string>,
    followed: seq<string>,
    failure: Option<DocError>)

  /** `[...$base.split('/'), field].join('/')`. */
  function FieldPath(base: string, field: string): string
  {
    Join(Split(base, '/') + [field], '/')
  }

  /**
   * The URI of a `template` or `source` reference: `.` names the file that
   * defines the field (or the base file), anything else is resolved against it.
   */
  function ReferenceUri(lake: Lake, fieldPath: string, baseUri: string, reference: string): string
  {
    var definedIn := Or(Last(lake.uriForPath(fieldPath)), baseUri);
    if reference == "." then definedIn else lake.resolveUri(definedIn, reference)
  }

  function RefreshFilesFollow(st: DocState, profile: DocProfile, disable: bool, lake: Lake, hooks: Hooks): (o: FollowOutcome)
    ensures o.unfollowed == st.followFiles.GetOr([])
    ensures o.state.error == st.error && o.state.isPending == st.isPending && o.state.contentData == st.contentData
    ensures disable ==> o.followed == [] && o.failure.None? && o.state == st.(baseUri := None, templateUri := None, sourceUri := None)
    ensures !disable && o.failure.None? ==> o.state.followFiles == Some(o.followed)
    ensures disable || o.failure.Some? ==> o.followed == [] && o.state.followFiles == st.followFiles
    ensures !Truthy(profile.template) ==> o.state.templateUri.None?
    ensures o.state.templateUri.None? || o.state.sourceUri.None?
    ensures !disable && o.failure.None? ==>
              o.followed == hooks.followFilter(if o.state.templateUri.Some? then [o.state.templateUri.value]
                                               else if o.state.sourceUri.Some? then [o.state.sourceUri.value]
                                               else [])
  {
    var unfollowed := st.followFiles.GetOr([]);
    var cleared := st.(baseUri := None, templateUri := None, sourceUri := None);
    if disable then FollowOutcome(cleared, unfollowed, [], None)
    else
      var base := Last(lake.uriForPath(profile.base));
      var withBase := cleared.(baseUri := base);
      if !Truthy(base) then FollowOutcome(withBase, unfollowed, [], Some(NoBaseUri(profile.base)))
      else if Truthy(profile.template) then
        var path := FieldPath(profile.base, "template");
        var uri := ReferenceUri(lake, path, base.value, profile.template.value);
        var s := withBase.(templateUri := Some(uri));
        if uri == "" then FollowOutcome(s, unfollowed, [], Some(NoTemplateUri(path)))
        else Follow(s, unfollowed, [uri], hooks)
      else if profile.source.Some? && profile.source.value.JString? && hooks.docType == Content then
        var path := FieldPath(profile.base, "source");
        var uri := ReferenceUri(lake, path, base.value, profile.source.value.str);
        var s := withBase.(sourceUri := Some(uri));
        if uri == "" then FollowOutcome(s, unfollowed, [], Some(NoSourceUri(path)))
        else Follow(s, unfollowed, [uri], hooks)
      else Follow(withBase, unfollowed, [], hooks)
  }

  /** The end of `refreshFilesFollow`: let the hook adjust the list, remember it, and follow each file. */
  function Follow(s: DocState, unfollowed: seq<string>, files: seq<string>, hooks: Hooks): (o: FollowOutcome)
    ensures o.failure.None? && o.unfollowed == unfollowed
    ensures o.state.followFiles == Some(o.followed)
    ensures o.followed == hooks.followFilter(files) && o.state == s.(followFiles := Some(o.followed))
  {
    var kept := hooks.followFilter(files);
    FollowOutcome(s.(followFiles := Some(kept)), unfollowed, kept, None)
  }

  // ---------------------------------------------------------------------------
  // doRefresh

  /** The result of `doRefresh`, with the calls it made that the state does not show. */
  datatype RefreshOutcome = RefreshOutcome(
    state: DocState,
    unfollowed: seq<string>,
    followed: seq<string>,
    pulled: seq<string>,           // URIs passed to `pullFile`
    resolvedProfile: bool,         // `resolveDataSetProfile` was called
    customCalled: bool,            // `processingCustom` was called
    delivered: Option<Content>,    // the data passed to `processingContent`
    processed: seq<Option<Json>>)  // the argument of each `processingData` call; `None` is the catch's `undefined`

  /** `!this.profile?.source` */
  predicate HasSource(profile: DocProfile)
  {
    profile.source.Some? && JsonTruthy(profile.source.value)
  }

  /** The `catch` and `finally` blocks: record the error, drop the content, stop pending. */
  function Caught(st: DocState, e: DocError): (r: DocState)
    ensures r.error == Some(e) && r.contentData.None? && !r.isPending
  {
    st.(error := Some(e), contentData := None, isPending := false)
  }

  /** An outcome through the `catch`: `processingData(undefined)` follows the calls made before the throw. */
  function CaughtOutcome(st: DocState, e: DocError, f: FollowOutcome, pulled: seq<string>, resolved: bool,
                         customCalled: bool, processed: seq<Option<Json>>): (r: RefreshOutcome)
    ensures r.state.error == Some(e) && r.state.contentData.None? && !r.state.isPending && r.delivered.None?
    ensures |r.processed| == |processed| + 1 && r.processed[|processed|].None? && r.processed[..|processed|] == processed
  {
    RefreshOutcome(Caught(st, e), f.unfollowed, f.followed, pulled, resolved, customCalled, None, processed + [None])
  }

  /**
   * `doRefresh`, with `awaitRender` telling whether the Mustache rendering is
   * awaited: as written it is not (see `DoRefresh` and `DoRefreshAwaited`).
   */
  function Refresh(st: DocState, profile: DocProfile, params: Params, lake: Lake, hooks: Hooks, awaitRender: bool)
    : (o: RefreshOutcome)
    ensures !o.state.isPending
    ensures !HasSource(profile) ==> o.state == Caught(st, MissingSource) && o.unfollowed == [] && o.followed == []
                                    && !o.resolvedProfile
    ensures hooks.docType == Custom ==> o.pulled == [] && !o.resolvedProfile && o.delivered.None?
    ensures o.customCalled <==> hooks.docType == Custom && HasSource(profile)
                                && RefreshFilesFollow(st.(isPending := true), profile, false, lake, hooks).failure.None?
    ensures hooks.docType == DataDoc ==> o.pulled == [] && o.delivered.None?
    ensures o.state.error.None? ==> HasSource(profile) && (hooks.docType != Custom ==> o.state.contentData.Some?)
    ensures awaitRender && o.delivered.Some? ==> o.delivered.value.Loaded?
    ensures !HasSource(profile) ==> o.processed == [None]
    ensures None in o.processed ==> o.state.contentData.None? && o.state.error.Some? && o.delivered.None?
    ensures o.state.error.Some? && o.state.error != st.error && o.state.error != Some(Invalid)
            ==> |o.processed| > 0 && o.processed[|o.processed| - 1].None?
  {
    if !HasSource(profile) then
      RefreshOutcome(Caught(st, MissingSource), [], [], [], false, false, None, [None])
    else
      var f := RefreshFilesFollow(st.(isPending := true), profile, false, lake, hooks);
      if f.failure.Some? then
        CaughtOutcome(f.state, f.failure.value, f, [], false, false, [])
      else if hooks.docType == Custom then
        if hooks.processCustom.Some? then CaughtOutcome(f.state, Thrown(hooks.processCustom.value), f, [], false, true, [])
        else RefreshOutcome(f.state.(isPending := false), f.unfollowed, f.followed, [], false, true, None, [])
      else
        Load(f, profile, params, lake, hooks, awaitRender)
  }

  /** `doRefresh` as written: whatever is delivered is also what `contentData` keeps, and the error is cleared. */
  function DoRefresh(st: DocState, profile: DocProfile, params: Params, lake: Lake, hooks: Hooks): (o: RefreshOutcome)
    ensures !o.state.isPending
    ensures !HasSource(profile) ==> o.state == Caught(st, MissingSource) && o.unfollowed == [] && o.followed == []
                                    && !o.resolvedProfile
    ensures o.customCalled <==> hooks.docType == Custom && HasSource(profile)
                                && RefreshFilesFollow(st.(isPending := true), profile, false, lake, hooks).failure.None?
    ensures hooks.docType != Content ==> o.pulled == [] && o.delivered.None?
    ensures o.delivered.Some? ==> o.state.error.None? && o.state.contentData == o.delivered
  {
    Refresh(st, profile, params, lake, hooks, false)
  }

  /** `doRefresh` with the rendering awaited: a rejected rendering is caught, and no Promise is ever delivered. */
  function DoRefreshAwaited(st: DocState, profile: DocProfile, params: Params, lake: Lake, hooks: Hooks): (o: RefreshOutcome)
    ensures !o.state.isPending
    ensures o.delivered.Some? ==> o.delivered.value.Loaded? && o.state.error.None? && o.state.contentData == o.delivered
    ensures o.state.error.None? ==> HasSource(profile)
  {
    Refresh(st, profile, params, lake, hooks, true)
  }

  /** The branch of `doRefresh` for `content` and `data` documents: load the template and the data, check them, render, deliver. */
  function Load(f: FollowOutcome, profile: DocProfile, params: Params, lake: Lake, hooks: Hooks, awaitRender: bool)
    : (o: RefreshOutcome)
    requires f.failure.None? && hooks.docType != Custom
    ensures !o.state.isPending && !o.customCalled
    ensures o.unfollowed == f.unfollowed && o.followed == f.followed
    ensures hooks.docType == DataDoc ==> o.pulled == [] && o.delivered.None?
    ensures o.state.error.None? ==> o.state.contentData.Some?
    ensures o.state.error != Some(MissingSource)
    ensures o.delivered.Some? ==> o.state.error.None? && o.state.contentData == o.delivered
    ensures awaitRender && o.delivered.Some? ==> o.delivered.value.Loaded?
    ensures None in o.processed ==> o.state.contentData.None? && o.state.error.Some? && o.delivered.None?
    ensures o.state.error.Some? && o.state.error != f.state.error && o.state.error != Some(Invalid)
            ==> |o.processed| > 0 && o.processed[|o.processed| - 1].None?
  {
    var st := f.state;
    var useTemplate := hooks.docType == Content && Truthy(st.templateUri);
    var templatePulled := if useTemplate then [st.templateUri.value] else [];
    var templatePull := if useTemplate then lake.pullFile(st.templateUri.value) else Success(None);
    if templatePull.Failure? then
      CaughtOutcome(st, Thrown(templatePull.error), f, templatePulled, false, false, [])
    else
      // A falsy template response counts as no template.
      var template := templatePull.value;
      if template.Some? || hooks.docType == DataDoc then
        var data := lake.resolveProfile(profile, params, st.baseUri);
        if data.Failure? then
          CaughtOutcome(st, Thrown(data.error), f, templatePulled, true, false, [])
        else if !hooks.schemaAccepts(data.value) then
          RefreshOutcome(st.(error := Some(Invalid), isPending := false), f.unfollowed, f.followed, templatePulled, true, false, None, [])
        else
          var processed := hooks.processData(data.value);
          var withData := st.(contentData := Some(Loaded(data.value)));
          var calls := [Some(data.value)];
          if processed.Failure? then
            CaughtOutcome(withData, Thrown(processed.error), f, templatePulled, true, false, calls)
          else if template.None? then
            RefreshOutcome(withData.(error := None, isPending := false), f.unfollowed, f.followed, templatePulled, true, false, None, calls)
          else if template.value == JNull then
            CaughtOutcome(withData, NullTemplateData, f, templatePulled, true, false, calls)
          else if !awaitRender then
            var pending := PendingRender(template.value, processed.value);
            var s := withData.(error := None, contentData := Some(pending), isPending := false);
            RefreshOutcome(s, f.unfollowed, f.followed, templatePulled, true, false, Some(pending), calls)
          else
            var rendered := hooks.render(template.value, processed.value);
            if rendered.Failure? then
              CaughtOutcome(withData, Thrown(rendered.error), f, templatePulled, true, false, calls)
            else
              var shown := Loaded(JString(rendered.value));
              var s := withData.(error := None, contentData := Some(shown), isPending := false);
              RefreshOutcome(s, f.unfollowed, f.followed, templatePulled, true, false, Some(shown), calls)
      else if !Truthy(st.sourceUri) then
        CaughtOutcome(st, CannotRender(profile.base), f, templatePulled, false, false, [])
      else
        var sourcePulled := templatePulled + [st.sourceUri.value];
        var pulled := lake.pullFile(st.sourceUri.value);
        if pulled.Failure? then
          CaughtOutcome(st, Thrown(pulled.error), f, sourcePulled, false, false, [])
        else if pulled.value.None? then
          CaughtOutcome(st, CannotRender(profile.base), f, sourcePulled, false, false, [])
        else
          var shown := Loaded(pulled.value.value);
          var s := st.(error := None, contentData := Some(shown), isPending := false);
          RefreshOutcome(s, f.unfollowed, f.followed, sourcePulled, false, false, Some(shown), [])
  }

  // ---------------------------------------------------------------------------
  // getMetaEdit

  datatype MetaEntry = MetaEntry(title: string, icon: Icons.Lookup)

  datatype Meta = Meta(title: string, icon: Icons.Lookup, entries: seq<MetaEntry>)

  /** The title shown for a document: its title, else its base path, else `$undefined$`. */
  function MetaTitle(profile: DocProfile): (t: string)
    ensures Truthy(profile.title) ==> t == profile.title.value
    ensures !Truthy(profile.title) && profile.base != "" ==> t == profile.base
    ensures !Truthy(profile.title) && profile.base == "" ==> t == "$undefined$"
    ensures t != ""
  {
    Or(profile.title, if profile.base != "" then profile.base else "$undefined$")
  }

  /** `getIconByURI(uri)` as written, with URL parsing given as `pathnameOf`; `undefined` is parsed as the text "undefined". */
  function IconOf(uri: Option<string>, pathnameOf: string -> string): Icons.Lookup
  {
    Icons.IconByPathnameAsWritten(pathnameOf(uri.GetOr("undefined")))
  }

  function Entries(uris: seq<string>, pathnameOf: string -> string): (es: seq<MetaEntry>)
    ensures |es| == |uris|
    ensures forall i :: 0 <= i < |uris| ==> es[i] == MetaEntry(uris[i], IconOf(Some(uris[i]), pathnameOf))
  {
    if |uris| == 0 then [] else [MetaEntry(uris[0], IconOf(Some(uris[0]), pathnameOf))] + Entries(uris[1..], pathnameOf)
  }

  /**
   * `getMetaEdit`: the metadata and the component's `followFiles` afterwards. An
   * empty `followFiles` array is the very array the DataLake's URIs are pushed into.
   */
  function GetMetaEdit(st: DocState, profile: DocProfile, lake: Lake, pathnameOf: string -> string): (r: (Meta, Option<seq<string>>))
    ensures var files := if st.followFiles.Some? && |st.followFiles.value| > 0 then st.followFiles.value
                         else lake.uriForPath(profile.base);
            |r.0.entries| == |files|
            && forall i :: 0 <= i < |files| ==> r.0.entries[i].title == files[i]
    ensures var files := if st.followFiles.Some? && |st.followFiles.value| > 0 then st.followFiles.value
                         else lake.uriForPath(profile.base);
            r.0.entries == Entries(files, pathnameOf)
    ensures r.0.title == MetaTitle(profile)
    ensures Truthy(st.baseUri) ==> r.0.icon == IconOf(st.baseUri, pathnameOf)
    ensures !Truthy(st.baseUri) ==>
              r.0.icon == IconOf(if r.1.Some? && |r.1.value| > 0 then Some(r.1.value[0]) else None, pathnameOf)
    ensures st.followFiles.None? ==> r.1.None?
    ensures st.followFiles == Some([]) ==> r.1 == Some(lake.uriForPath(profile.base))
    ensures st.followFiles.Some? && |st.followFiles.value| > 0 ==> r.1 == st.followFiles
  {
    var entries := if st.followFiles.Some? && |st.followFiles.value| > 0 then st.followFiles.value
                   else lake.uriForPath(profile.base);
    var followFiles := if st.followFiles.Some? then Some(entries) else None;
    var first := if followFiles.Some? && |followFiles.value| > 0 then Some(followFiles.value[0]) else None;
    var iconUri := if Truthy(st.baseUri) then st.baseUri else first;
    (Meta(MetaTitle(profile), IconOf(iconUri, pathnameOf), Entries(entries, pathnameOf)), followFiles)
  }

  // ---------------------------------------------------------------------------
  // destroyed

  /** A mounted component: its fields and its debounce timer slot. */
  datatype Component<D> = Component(self: D, state: DocState, timer: Debounce.Timer)

  /**
   * `destroyed`: stop following files and leave the AI context registry. The
   * timer slot is not touched, so an armed refresh still fires.
   */
  function Destroyed<D(==,!new)>(c: Component<D>, registry: seq<D>, profile: DocProfile, lake: Lake, hooks: Hooks)
    : (r: (Component<D>, seq<string>, seq<D>))
    ensures r.0.timer == c.timer
    ensures r.1 == c.state.followFiles.GetOr([])
    ensures r.0.state.baseUri.None? && r.0.state.templateUri.None? && r.0.state.sourceUri.None?
    ensures c.self !in r.2 && forall d :: d in r.2 <==> d in registry && d != c.self
  {
    var f := RefreshFilesFollow(c.state, profile, true, lake, hooks);
    (c.(state := f.state), f.unfollowed, AiContext.Unregister(registry, c.self))
  }

  // ---------------------------------------------------------------------------
  // Properties of refreshFilesFollow

  /** The template path is the base path with `/template` appended. */
  lemma FieldPathAppends(base: string, field: string)
    ensures FieldPath(base, field) == base + "/" + field
  {
    JoinAppend(Split(base, '/'), [field], '/');
    JoinSplit(base, '/');
  }

  /** Without a truthy last URI for `$base` the call throws; otherwise that URI is the base. */
  lemma BaseIsLastUri(st: DocState, profile: DocProfile, lake: Lake, hooks: Hooks)
    ensures var uris := lake.uriForPath(profile.base);
            var o := RefreshFilesFollow(st, profile, false, lake, hooks);
            && (|uris| == 0 || uris[|uris| - 1] == "" <==> o.failure == Some(NoBaseUri(profile.base)))
            && (|uris| > 0 ==> o.state.baseUri == Some(uris[|uris| - 1]))
            && (|uris| == 0 ==> o.state.baseUri.None?)
  {
  }

  /** A template wins over the source: the source is then neither resolved nor followed. */
  lemma TemplateTakesPrecedence(st: DocState, profile: DocProfile, lake: Lake, hooks: Hooks)
    requires Truthy(profile.template)
    ensures var o := RefreshFilesFollow(st, profile, false, lake, hooks);
            && o.state.sourceUri.None?
            && (o.failure.None? ==> o.state.templateUri.Some?
                                    && o.followed == hooks.followFilter([o.state.templateUri.value]))
  {
  }

  /** `.` names the file defining `template` (or the base file); anything else is resolved against it. */
  lemma TemplateDotIsDefiningFile(st: DocState, profile: DocProfile, lake: Lake, hooks: Hooks)
    requires Truthy(profile.template)
    requires Truthy(Last(lake.uriForPath(profile.base)))
    ensures var o := RefreshFilesFollow(st, profile, false, lake, hooks);
            var baseUri := Last(lake.uriForPath(profile.base)).value;
            var definedIn := Or(Last(lake.uriForPath(profile.base + "/template")), baseUri);
            o.state.templateUri == Some(if profile.template.value == "." then definedIn
                                        else lake.resolveUri(definedIn, profile.template.value))
  {
    FieldPathAppends(profile.base, "template");
    assert profile.base + "/" + "template" == profile.base + "/template";
  }

  /** The source is resolved only without a template, for a string source of a `content` document. */
  lemma SourceFollowedOnlyForContent(st: DocState, profile: DocProfile, disable: bool, lake: Lake, hooks: Hooks)
    ensures var o := RefreshFilesFollow(st, profile, disable, lake, hooks);
            o.state.sourceUri.Some? <==>
              && !disable
              && Truthy(Last(lake.uriForPath(profile.base)))
              && !Truthy(profile.template)
              && profile.source.Some? && profile.source.value.JString?
              && hooks.docType == Content
  {
  }

  /**
   * A string source is resolved like a template: `.` names the file defining
   * `source` (or the base file), anything else is resolved against that file.
   */
  lemma SourceResolvesAgainstDefiningFile(st: DocState, profile: DocProfile, lake: Lake, hooks: Hooks)
    requires Truthy(Last(lake.uriForPath(profile.base)))
    requires !Truthy(profile.template) && hooks.docType == Content
    requires profile.source.Some? && profile.source.value.JString?
    ensures var o := RefreshFilesFollow(st, profile, false, lake, hooks);
            var source := profile.source.value.str;
            var definedIn := Or(Last(lake.uriForPath(profile.base + "/source")), Last(lake.uriForPath(profile.base)).value);
            o.state.sourceUri == Some(if source == "." then definedIn else lake.resolveUri(definedIn, source))
  {
    FieldPathAppends(profile.base, "source");
    assert profile.base + "/" + "source" == profile.base + "/source";
  }

  // ---------------------------------------------------------------------------
  // Properties of doRefresh

  /** A falsy `source` (`null`, `false`, `0`, `""`) stops the refresh before any DataLake call. */
  lemma FalsySourceStopsEarly(st: DocState, profile: DocProfile, params: Params, lake: Lake, hooks: Hooks)
    requires profile.source.None? || profile.source.value in {JNull, JBool(false), JNumber(0.0), JString("")}
    ensures var o := DoRefresh(st, profile, params, lake, hooks);
            && o.state.error == Some(MissingSource)
            && o.unfollowed == [] && o.followed == [] && o.pulled == []
            && !o.resolvedProfile && !o.customCalled && o.processed == [None]
  {
  }

  /**
   * A `content` document without a template pulls exactly its source file, never
   * resolves the profile, and delivers the response's data; a falsy response
   * cannot be rendered.
   */
  lemma ContentPullsSource(st: DocState, profile: DocProfile, params: Params, lake: Lake, hooks: Hooks)
    requires hooks.docType == Content && HasSource(profile)
    requires var f := RefreshFilesFollow(st.(isPending := true), profile, false, lake, hooks);
             f.failure.None? && !Truthy(f.state.templateUri) && Truthy(f.state.sourceUri)
    ensures var o := DoRefresh(st, profile, params, lake, hooks);
            var f := RefreshFilesFollow(st.(isPending := true), profile, false, lake, hooks);
            var pull := lake.pullFile(f.state.sourceUri.value);
            && o.pulled == [f.state.sourceUri.value] && !o.resolvedProfile
            && (pull.Success? && pull.value.Some? ==>
                  o.state.error.None? && o.delivered == Some(Loaded(pull.value.value)) && o.processed == [])
            && (pull.Success? && pull.value.None? ==>
                  o.state.error == Some(CannotRender(profile.base))
                  && o.state.contentData.None? && o.delivered.None? && o.processed == [None])
            && (pull.Failure? ==>
                  o.state.error == Some(Thrown(pull.error))
                  && o.state.contentData.None? && o.delivered.None? && o.processed == [None])
  {
  }

  /**
   * A falsy template response counts as no template; with no source URI beside
   * the template, the document cannot be rendered.
   */
  lemma FalsyTemplateCannotRender(st: DocState, profile: DocProfile, params: Params, lake: Lake, hooks: Hooks,
                                  awaitRender: bool)
    requires hooks.docType == Content && HasSource(profile)
    requires var f := RefreshFilesFollow(st.(isPending := true), profile, false, lake, hooks);
             && f.failure.None? && Truthy(f.state.templateUri)
             && lake.pullFile(f.state.templateUri.value) == Success(None)
    ensures var o := Refresh(st, profile, params, lake, hooks, awaitRender);
            var f := RefreshFilesFollow(st.(isPending := true), profile, false, lake, hooks);
            && o.state.error == Some(CannotRender(profile.base)) && o.state.contentData.None? && o.delivered.None?
            && o.pulled == [f.state.templateUri.value] && !o.resolvedProfile && o.processed == [None]
  {
  }

  /**
   * Data from the profile that fails the schema, for a `data` document or a
   * `content` document with a template, is recorded as an error; nothing is
   * processed, rendered or delivered, and the previous content stays.
   */
  lemma ValidationFailureStops(st: DocState, profile: DocProfile, params: Params, lake: Lake, hooks: Hooks)
    requires HasSource(profile)
    requires var f := RefreshFilesFollow(st.(isPending := true), profile, false, lake, hooks);
             && f.failure.None?
             && (|| hooks.docType == DataDoc
                 || (&& hooks.docType == Content && Truthy(f.state.templateUri)
                     && lake.pullFile(f.state.templateUri.value).Success?
                     && lake.pullFile(f.state.templateUri.value).value.Some?))
    requires var baseUri := Last(lake.uriForPath(profile.base));
             && lake.resolveProfile(profile, params, baseUri).Success?
             && !hooks.schemaAccepts(lake.resolveProfile(profile, params, baseUri).value)
    ensures var o := DoRefresh(st, profile, params, lake, hooks);
            var f := RefreshFilesFollow(st.(isPending := true), profile, false, lake, hooks);
            && o.state.error == Some(Invalid) && o.delivered.None? && o.resolvedProfile
            && o.state.contentData == st.contentData && o.processed == []
            && o.pulled == (if hooks.docType == DataDoc then [] else [f.state.templateUri.value])
  {
  }

  /**
   * A `data` document that passes the schema keeps the data resolved with its
   * parameters against its base URI, before `processingData`.
   */
  lemma DataKeepsResolvedData(st: DocState, profile: DocProfile, params: Params, lake: Lake, hooks: Hooks)
    requires hooks.docType == DataDoc && HasSource(profile)
    requires RefreshFilesFollow(st.(isPending := true), profile, false, lake, hooks).failure.None?
    requires var data := lake.resolveProfile(profile, params, Last(lake.uriForPath(profile.base)));
             && data.Success? && hooks.schemaAccepts(data.value) && hooks.processData(data.value).Success?
    ensures var o := DoRefresh(st, profile, params, lake, hooks);
            var data := lake.resolveProfile(profile, params, Last(lake.uriForPath(profile.base)));
            && o.state.error.None? && o.state.contentData == Some(Loaded(data.value))
            && o.delivered.None? && o.processed == [Some(data.value)]
  {
  }

  /**
   * As written, a template's rendering is handed on before it settles: the
   * pending rendering is delivered and kept, and the error is cleared, whether
   * the rendering will succeed or not.
   */
  lemma TemplateRendersProcessedData(st: DocState, profile: DocProfile, params: Params, lake: Lake, hooks: Hooks,
                                     template: Json)
    requires hooks.docType == Content && HasSource(profile)
    requires var f := RefreshFilesFollow(st.(isPending := true), profile, false, lake, hooks);
             && f.failure.None? && Truthy(f.state.templateUri)
             && lake.pullFile(f.state.templateUri.value) == Success(Some(template)) && template != JNull
    requires var data := lake.resolveProfile(profile, params, Last(lake.uriForPath(profile.base)));
             && data.Success? && hooks.schemaAccepts(data.value) && hooks.processData(data.value).Success?
    ensures var o := DoRefresh(st, profile, params, lake, hooks);
            var f := RefreshFilesFollow(st.(isPending := true), profile, false, lake, hooks);
            var data := lake.resolveProfile(profile, params, Last(lake.uriForPath(profile.base)));
            var pending := PendingRender(template, hooks.processData(data.value).value);
            && o.pulled == [f.state.templateUri.value] && o.resolvedProfile
            && o.delivered == Some(pending) && o.state.contentData == Some(pending) && o.state.error.None?
            && o.processed == [Some(data.value)]
  {
  }

  /**
   * Template data `null` throws at `toString()` before any rendering, awaited or
   * not: the processed data is dropped and nothing reaches `processingContent`.
   */
  lemma NullTemplateDataThrows(st: DocState, profile: DocProfile, params: Params, lake: Lake, hooks: Hooks, awaitRender: bool)
    requires hooks.docType == Content && HasSource(profile)
    requires var f := RefreshFilesFollow(st.(isPending := true), profile, false, lake, hooks);
             && f.failure.None? && Truthy(f.state.templateUri)
             && lake.pullFile(f.state.templateUri.value) == Success(Some(JNull))
    requires var data := lake.resolveProfile(profile, params, Last(lake.uriForPath(profile.base)));
             && data.Success? && hooks.schemaAccepts(data.value) && hooks.processData(data.value).Success?
    ensures var o := Refresh(st, profile, params, lake, hooks, awaitRender);
            var data := lake.resolveProfile(profile, params, Last(lake.uriForPath(profile.base)));
            && o.state.error == Some(NullTemplateData) && o.state.contentData.None? && o.delivered.None?
            && o.processed == [Some(data.value), None]
  {
  }

  /** As written, how the rendering settles never shows in the outcome. */
  lemma RenderOutcomeIsNeverObserved(st: DocState, profile: DocProfile, params: Params, lake: Lake, hooks: Hooks,
                                     render: (Json, Json) -> Result<string, string>)
    ensures DoRefresh(st, profile, params, lake, hooks.(render := render)) == DoRefresh(st, profile, params, lake, hooks)
  {
    var f := RefreshFilesFollow(st.(isPending := true), profile, false, lake, hooks);
    assert RefreshFilesFollow(st.(isPending := true), profile, false, lake, hooks.(render := render)) == f;
    if HasSource(profile) && f.failure.None? && hooks.docType != Custom {
      LoadIgnoresRender(f, profile, params, lake, hooks, render);
    }
  }

  /** The un-awaited loading step never calls `render`. */
  lemma LoadIgnoresRender(f: FollowOutcome, profile: DocProfile, params: Params, lake: Lake, hooks: Hooks,
                          render: (Json, Json) -> Result<string, string>)
    requires f.failure.None? && hooks.docType != Custom
    ensures Load(f, profile, params, lake, hooks.(render := render), false) == Load(f, profile, params, lake, hooks, false)
  {
  }

  /** Awaited, the rendered text is delivered and kept, and a rejected rendering is recorded as the error. */
  lemma AwaitedRenderIsShown(st: DocState, profile: DocProfile, params: Params, lake: Lake, hooks: Hooks, template: Json)
    requires hooks.docType == Content && HasSource(profile)
    requires var f := RefreshFilesFollow(st.(isPending := true), profile, false, lake, hooks);
             && f.failure.None? && Truthy(f.state.templateUri)
             && lake.pullFile(f.state.templateUri.value) == Success(Some(template)) && template != JNull
    requires var data := lake.resolveProfile(profile, params, Last(lake.uriForPath(profile.base)));
             && data.Success? && hooks.schemaAccepts(data.value) && hooks.processData(data.value).Success?
    ensures var o := DoRefreshAwaited(st, profile, params, lake, hooks);
            var data := lake.resolveProfile(profile, params, Last(lake.uriForPath(profile.base)));
            var rendered := hooks.render(template, hooks.processData(data.value).value);
            && (rendered.Success? ==> o.delivered == Some(Loaded(JString(rendered.value)))
                                      && o.state.contentData == o.delivered && o.state.error.None?)
            && (rendered.Failure? ==> o.delivered.None? && o.state.contentData.None?
                                      && o.state.error == Some(Thrown(rendered.error)))
            && o.processed == (if rendered.Success? then [Some(data.value)] else [Some(data.value), None])
  {
  }

  /**
   * With an empty `followFiles` and no base URI, the icon comes from the first URI
   * pushed into that array; with `followFiles` undefined it comes from `undefined`.
   */
  lemma MetaIconFollowsAliasing(st: DocState, profile: DocProfile, lake: Lake, pathnameOf: string -> string)
    requires !Truthy(st.baseUri) && |lake.uriForPath(profile.base)| > 0
    ensures st.followFiles == Some([]) ==>
      GetMetaEdit(st, profile, lake, pathnameOf).0.icon == IconOf(Some(lake.uriForPath(profile.base)[0]), pathnameOf)
    ensures st.followFiles.None? ==>
      GetMetaEdit(st, profile, lake, pathnameOf).0.icon == IconOf(None, pathnameOf)
  {
  }
}
