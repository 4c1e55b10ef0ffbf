/**
 * The earlier declaration of data-set profiles. Its query and query-file
 * template literals are the same as the later ones (`Jsonata.IsInlineQuery`,
 * `Jsonata.IsQueryFile`); what differs is that a source cannot be a query object.
 */
module DataSets {
  import opened Common
  import opened Json
  import J = Jsonata

  /** `DocHubDataSetProfileSource`: a string or data used as is. */
  datatype Source = Text(text: string) | Data(data: J.DataObject)

  /** `DocHubDataSetProfileOrigin`: one source or named sources. */
  datatype Origin = Single(source: Source) | Named(sources: map<string, Source>)

  /** `IDocHubDataSetProfile`: `source` is mandatory, `origin` optional. */
  datatype Profile = Profile(origin: Option<Origin>, source: Source)

  function UpgradeSource(s: Source): (r: J.Source)
    ensures !r.Query?
    ensures s.Text? <==> r.Text?
    ensures s.Text? ==> r.text == s.text
    ensures s.Data? ==> r == J.Data(s.data)
  {
    match s
    case Text(t) => J.Text(t)
    case Data(d) => J.Data(d)
  }

  function UpgradeOrigin(o: Origin): J.Origin
  {
    match o
    case Single(s) => J.Single(UpgradeSource(s))
    case Named(m) => J.Named(map k | k in m :: UpgradeSource(m[k]))
  }

  /** Every earlier profile is a profile of the later declaration. */
  function Upgrade(p: Profile): (r: J.Profile)
    ensures r.origin.Some? <==> p.origin.Some?
    ensures J.Kind(r.source) == SourceKind(p.source)
  {
    J.Profile(if p.origin.Some? then Some(UpgradeOrigin(p.origin.value)) else None,
              UpgradeSource(p.source))
  }

  /** The shape of an earlier source, by its `DocHubJSONataQuery` and `DocHubJSONataFile` template literals. */
  function SourceKind(s: Source): (k: J.SourceKind)
    ensures k == J.InlineQuery <==> s.Text? && J.IsInlineQuery(s.text)
    ensures k == J.QueryFile <==> s.Text? && J.IsQueryFile(s.text)
    ensures k == J.Literal <==> s.Data?
  {
    match s
    case Text(t) =>
      J.QueryNotFile(t);
      if J.IsInlineQuery(t) then J.InlineQuery
      else if J.IsQueryFile(t) then J.QueryFile
      else J.OtherText
    case Data(_) => J.Literal
  }

  function DowngradeSource(s: J.Source): Option<Source>
  {
    match s
    case Text(t) => Some(Text(t))
    case Query(_) => None
    case Data(d) => Some(Data(d))
  }

  /** A later profile read with the earlier declaration; `None` when it holds a query object. */
  function Downgrade(p: J.Profile): Option<Profile>
  {
    var src := DowngradeSource(p.source);
    if src.None? then None
    else if p.origin.None? then Some(Profile(None, src.value))
    else if p.origin.value.Single? then
      var s := DowngradeSource(p.origin.value.source);
      if s.None? then None else Some(Profile(Some(Single(s.value)), src.value))
    else
      var m := p.origin.value.sources;
      if exists k :: k in m && m[k].Query? then None
      else Some(Profile(Some(Named(map k | k in m :: DowngradeSource(m[k]).value)), src.value))
  }

  /** Reading an upgraded profile back with the earlier declaration gives the profile itself. */
  lemma UpgradeRoundTrip(p: Profile)
    ensures Downgrade(Upgrade(p)) == Some(p)
  {
    match p.origin
    case None =>
    case Some(Single(s)) =>
    case Some(Named(m)) =>
      var um := map k | k in m :: UpgradeSource(m[k]);
      assert J.Named(um) == UpgradeOrigin(Named(m));
      var back := map k | k in um :: DowngradeSource(um[k]).value;
      assert back == m;
  }

  /** Conversely, a later profile without query objects is the upgrade of its reading. */
  lemma DowngradeRoundTrip(p: J.Profile)
    requires Downgrade(p).Some?
    ensures Upgrade(Downgrade(p).value) == p
  {
    if p.origin.Some? && p.origin.value.Named? {
      var m := p.origin.value.sources;
      var dm := map k | k in m :: DowngradeSource(m[k]).value;
      var um := map k | k in dm :: UpgradeSource(dm[k]);
      assert um == m;
    }
  }
}
