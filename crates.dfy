/** The crates.io adapter: `search_crates` and `get_crates_info`. */
module Crates {
  import opened PyJson
  import opened Errors
  import opened Http
  import opened Models

  const API_ROOT := "https://crates.io/api/v1/crates"

  const SEARCH_FAILED := "Failed to search crates.io"
  const SEARCH_UNPARSED := "crates.io search results"
  const INFO_FAILED := "Failed to get package info from crates.io"
  const INFO_UNPARSED := "crates.io package info"

  const NO_TEXT := JStr("")
  const NO_OBJECT := JObj([])
  const NO_LIST := JArr([])
  const NO_COUNT := JNum(0)

  /** One normalized search entry. */
  datatype SearchHit = SearchHit(
    name: Json, version: Json, description: Json,
    downloads: Json, createdAt: Json, updatedAt: Json)

  function SearchHitJson(h: SearchHit): Json {
    JObj([
      ("name", h.name), ("version", h.version), ("description", h.description),
      ("downloads", h.downloads), ("created_at", h.createdAt), ("updated_at", h.updatedAt)])
  }

  function SearchRequest(query: string, limit: int): Request {
    Request(API_ROOT, [("q", JStr(query)), ("per_page", JNum(limit))])
  }

  /** An entry of `crates` can be normalized: it holds `name` and `max_version`. */
  predicate HitShaped(crate: Json) {
    Has(crate, "name") && Has(crate, "max_version")
  }

  /** The normalization of one `crates` entry: `name` and `max_version` are
      required (the latter reported as `version`), the rest default to "" or 0. */
  function HitFrom(crate: Json): (r: Option<SearchHit>)
    ensures r.Some? <==> HitShaped(crate)
    ensures r.Some? ==>
      && r.value.name == Field(crate, "name")
      && r.value.version == Field(crate, "max_version")
      && r.value.description == FieldOr(crate, "description", NO_TEXT)
      && r.value.downloads == FieldOr(crate, "downloads", NO_COUNT)
      && r.value.createdAt == FieldOr(crate, "created_at", NO_TEXT)
      && r.value.updatedAt == FieldOr(crate, "updated_at", NO_TEXT)
  {
    var name :- Subscript(crate, "name");
    var maxVersion :- Subscript(crate, "max_version");
    var description :- GetOr(crate, "description", NO_TEXT);
    var downloads :- GetOr(crate, "downloads", NO_COUNT);
    var createdAt :- GetOr(crate, "created_at", NO_TEXT);
    var updatedAt :- GetOr(crate, "updated_at", NO_TEXT);
    Some(SearchHit(name, maxVersion, description, downloads, createdAt, updatedAt))
  }

  /** The entries visited by `for crate in data.get("crates", [])[:limit]`. */
  function SearchEntries(data: Json, limit: int): (r: Option<seq<Json>>)
    ensures r.Some? ==> data.JObj?
    ensures r.Some? && 0 <= limit ==> |r.value| <= limit
    ensures data.JObj? && FieldOr(data, "crates", NO_LIST).JArr? ==>
      r == Some(PrefixSlice(FieldOr(data, "crates", NO_LIST).items, limit))
  {
    var crates :- GetOr(data, "crates", NO_LIST);
    SliceItems(crates, limit)
  }

  /** The `try` block of `search_crates`. */
  function HitsFrom(body: Option<Json>, limit: int): Option<seq<SearchHit>> {
    var data :- body;
    var entries :- SearchEntries(data, limit);
    MapAll(entries, HitFrom)
  }

  /** `search_crates`: a non-200 status is an INTERNAL_ERROR naming the
      status. Otherwise the result normalizes, in order, the entries of
      `crates` that the `[:limit]` slice keeps, and fails to parse as a whole
      if the body does not decode or any of those entries lacks a required key. */
  function SearchCrates(query: string, limit: int, get: Transport): (r: Result<seq<SearchHit>>)
    ensures var resp := get(SearchRequest(query, limit));
      resp.status != HTTP_OK ==> r == Err(StatusError(SEARCH_FAILED, resp.status))
    ensures var resp := get(SearchRequest(query, limit));
      resp.status == HTTP_OK ==>
        (r.Ok? <==>
          && resp.body.Some?
          && SearchEntries(resp.body.value, limit).Some?
          && forall i :: 0 <= i < |SearchEntries(resp.body.value, limit).value| ==>
               HitShaped(SearchEntries(resp.body.value, limit).value[i]))
    ensures var resp := get(SearchRequest(query, limit));
      resp.status == HTTP_OK && r.Err? ==> r.error == ParseError(SEARCH_UNPARSED)
    ensures r.Ok? ==>
      var entries := SearchEntries(get(SearchRequest(query, limit)).body.value, limit).value;
      && |r.value| == |entries|
      && (0 <= limit ==> |r.value| <= limit)
      && forall i :: 0 <= i < |entries| ==> Some(r.value[i]) == HitFrom(entries[i])
  {
    var resp := get(SearchRequest(query, limit));
    if resp.status != HTTP_OK then Err(StatusError(SEARCH_FAILED, resp.status))
    else
      match HitsFrom(resp.body, limit)
      case None => Err(ParseError(SEARCH_UNPARSED))
      case Some(hits) => Ok(hits)
  }

  /** A crates.io search document listing exactly `hits`. */
  function EntryFor(h: SearchHit): Json {
    JObj([
      ("name", h.name), ("max_version", h.version), ("description", h.description),
      ("downloads", h.downloads), ("created_at", h.createdAt), ("updated_at", h.updatedAt)])
  }

  function SearchDocumentFor(hits: seq<SearchHit>): Json {
    JObj([("crates", JArr(seq(|hits|, i requires 0 <= i < |hits| => EntryFor(hits[i]))))])
  }

  lemma HitFromEntry(h: SearchHit)
    ensures HitFrom(EntryFor(h)) == Some(h)
  {
    var entry := EntryFor(h);
    LookupAt(entry.members, 0);
    LookupAt(entry.members, 1);
    LookupAt(entry.members, 2);
    LookupAt(entry.members, 3);
    LookupAt(entry.members, 4);
    LookupAt(entry.members, 5);
  }

  /** Searching an index that answers the document listing `hits` returns
      the first `limit` of them, in the order listed. */
  lemma {:induction false} SearchCratesDocument(query: string, limit: nat, hits: seq<SearchHit>, get: Transport)
    requires get(SearchRequest(query, limit)) == Response(HTTP_OK, Some(SearchDocumentFor(hits)))
    ensures SearchCrates(query, limit, get) == Ok(PrefixSlice(hits, limit))
  {
    var doc := SearchDocumentFor(hits);
    LookupAt(doc.members, 0);
    var entries := SearchEntries(doc, limit).value;
    assert entries == PrefixSlice(doc.members[0].1.items, limit);
    forall i | 0 <= i < |entries|
      ensures HitFrom(entries[i]) == Some(hits[i])
    {
      HitFromEntry(hits[i]);
    }
    var r := MapAll(entries, HitFrom);
    assert r.Some?;
    assert r.value == PrefixSlice(hits, limit);
  }

  /** The package information returned by `get_crates_info`. */
  datatype PackageDetails = PackageDetails(
    name: Json, version: Json, description: Json, homepage: Json,
    documentation: Json, repository: Json, downloads: Json,
    recentDownloads: Json, categories: Json, keywords: Json,
    versions: seq<Json>, yanked: Json, license: Json)

  function PackageDetailsJson(d: PackageDetails): Json {
    JObj([
      ("name", d.name), ("version", d.version), ("description", d.description),
      ("homepage", d.homepage), ("documentation", d.documentation),
      ("repository", d.repository), ("downloads", d.downloads),
      ("recent_downloads", d.recentDownloads), ("categories", d.categories),
      ("keywords", d.keywords), ("versions", JArr(d.versions)),
      ("yanked", d.yanked), ("license", d.license)])
  }

  /** The crate summary: `/crates/{name}`. */
  function CrateRequest(name: string): Request {
    Get(API_ROOT + "/" + name)
  }

  /** One version's details: `/crates/{name}/{version}`. */
  function VersionRequest(name: string, version: string): Request {
    Get(API_ROOT + "/" + name + "/" + version)
  }

  /** The requested version as the Python variable holds it: None or a string. */
  function VersionArgument(version: Option<string>): (v: Json)
    ensures Truthy(v) <==> Requested(version)
  {
    match version
    case None => JNull
    case Some(s) => JStr(s)
  }

  /** `version_data` after the optional per-version lookup: `{}` unless a
      (non-empty) version was requested and its lookup answered 200, in which
      case it is that document's `version` entry (`{}` if absent). `None`
      when that document does not decode or is not a dict. */
  function LookedUpVersion(name: string, version: Option<string>, get: Transport): (r: Option<Json>)
    ensures !Requested(version) ==> r == Some(NO_OBJECT)
    ensures Requested(version) && get(VersionRequest(name, version.value)).status != HTTP_OK ==>
      r == Some(NO_OBJECT)
    ensures Requested(version) && get(VersionRequest(name, version.value)).status == HTTP_OK ==>
      var body := get(VersionRequest(name, version.value)).body;
      && (r.Some? <==> body.Some? && body.value.JObj?)
      && (r.Some? ==> r.value == FieldOr(body.value, "version", NO_OBJECT))
  {
    if !Requested(version) then Some(NO_OBJECT)
    else
      var resp := get(VersionRequest(name, version.value));
      if resp.status != HTTP_OK then Some(NO_OBJECT)
      else
        var doc :- resp.body;
        GetOr(doc, "version", NO_OBJECT)
  }

  /** `version` and `version_data` once the fallback has run. */
  datatype Resolution = Resolution(version: Json, versionData: Json)

  /** The fallback to the newest listed version: when the lookup gave no
      data and the summary lists versions, `versions[0]` supplies both the
      reported version (its `num`) and the version data, replacing whatever
      version was requested. */
  function Resolve(requested: Json, versionData: Json, data: Json): (r: Option<Resolution>)
    requires data.JObj?
    ensures Truthy(versionData) || !Truthy(FieldOr(data, "versions", JNull)) ==>
      r == Some(Resolution(requested, versionData))
    ensures !Truthy(versionData) && Truthy(FieldOr(data, "versions", JNull)) ==>
      var listed := FieldOr(data, "versions", JNull);
      && (r.Some? <==> listed.JArr? && Has(listed.items[0], "num"))
      && (r.Some? ==> r.value == Resolution(Field(listed.items[0], "num"), listed.items[0]))
  {
    var listed := FieldOr(data, "versions", JNull);
    if !Truthy(versionData) && Truthy(listed) then
      var first :- Index(listed, 0);
      var num :- Subscript(first, "num");
      Some(Resolution(num, first))
    else Some(Resolution(requested, versionData))
  }

  /** `[v["num"] for v in data.get("versions", [])]`: the `num` of every
      listed version, in order. */
  function VersionNumbers(data: Json): (r: Option<seq<Json>>)
    requires data.JObj?
    ensures FieldOr(data, "versions", NO_LIST).JArr? ==>
      var listed := FieldOr(data, "versions", NO_LIST).items;
      && (r.Some? <==> forall i :: 0 <= i < |listed| ==> Has(listed[i], "num"))
      && (r.Some? ==> |r.value| == |listed| && forall i :: 0 <= i < |listed| ==> r.value[i] == Field(listed[i], "num"))
  {
    var listed :- Iterate(FieldOr(data, "versions", NO_LIST));
    MapAll(listed, (v: Json) => Subscript(v, "num"))
  }

  /** The crate summary and the version lookup both read as far as the
      result needs them. */
  predicate Readable(name: string, version: Option<string>, data: Json, get: Transport) {
    && Has(data, "crate")
    && Has(Field(data, "crate"), "name")
    && LookedUpVersion(name, version, get).Some?
    && Resolve(VersionArgument(version), LookedUpVersion(name, version, get).value, data).Some?
    && VersionNumbers(data).Some?
    && var vd := Resolve(VersionArgument(version), LookedUpVersion(name, version, get).value, data).value.versionData;
       Truthy(vd) ==> vd.JObj?
  }

  /** The `try` block of `get_crates_info`, once the summary has decoded to `data`. */
  function DetailsFrom(name: string, version: Option<string>, data: Json, get: Transport): (r: Option<PackageDetails>)
    ensures r.Some? <==> Readable(name, version, data, get)
    ensures r.Some? ==>
      var crate := Field(data, "crate");
      var resolved := Resolve(VersionArgument(version), LookedUpVersion(name, version, get).value, data).value;
      && r.value.name == Field(crate, "name")
      && r.value.version == (if Truthy(resolved.version) then resolved.version else FieldOr(crate, "max_version", NO_TEXT))
      && r.value.description == FieldOr(crate, "description", NO_TEXT)
      && r.value.homepage == FieldOr(crate, "homepage", NO_TEXT)
      && r.value.documentation == FieldOr(crate, "documentation", NO_TEXT)
      && r.value.repository == FieldOr(crate, "repository", NO_TEXT)
      && r.value.downloads == FieldOr(crate, "downloads", NO_COUNT)
      && r.value.recentDownloads == FieldOr(crate, "recent_downloads", NO_COUNT)
      && r.value.categories == FieldOr(crate, "categories", NO_LIST)
      && r.value.keywords == FieldOr(crate, "keywords", NO_LIST)
      && Some(r.value.versions) == VersionNumbers(data)
      && r.value.yanked == (if Truthy(resolved.versionData) then FieldOr(resolved.versionData, "yanked", JBool(false)) else JBool(false))
      && r.value.license == (if Truthy(resolved.versionData) then FieldOr(resolved.versionData, "license", NO_TEXT) else NO_TEXT)
  {
    var crate :- Subscript(data, "crate");
    var looked :- LookedUpVersion(name, version, get);
    var resolved :- Resolve(VersionArgument(version), looked, data);
    var crateName :- Subscript(crate, "name");
    var reported := if Truthy(resolved.version) then resolved.version else FieldOr(crate, "max_version", NO_TEXT);
    var numbers :- VersionNumbers(data);
    var vd := resolved.versionData;
    if Truthy(vd) && !vd.JObj? then None
    else
      var yanked := if Truthy(vd) then FieldOr(vd, "yanked", JBool(false)) else JBool(false);
      var license := if Truthy(vd) then FieldOr(vd, "license", NO_TEXT) else NO_TEXT;
      Some(PackageDetails(
        crateName, reported,
        FieldOr(crate, "description", NO_TEXT), FieldOr(crate, "homepage", NO_TEXT),
        FieldOr(crate, "documentation", NO_TEXT), FieldOr(crate, "repository", NO_TEXT),
        FieldOr(crate, "downloads", NO_COUNT), FieldOr(crate, "recent_downloads", NO_COUNT),
        FieldOr(crate, "categories", NO_LIST), FieldOr(crate, "keywords", NO_LIST),
        numbers, yanked, license))
  }

  /** `get_crates_info`: a non-200 summary is an INTERNAL_ERROR naming the
      status; a summary that does not decode or lacks what the result needs
      is the separate parse error; otherwise the merged record. A failed
      per-version lookup is never an error by itself. */
  function GetCratesInfo(name: string, version: Option<string>, get: Transport): (r: Result<PackageDetails>)
    ensures var resp := get(CrateRequest(name));
      resp.status != HTTP_OK ==> r == Err(StatusError(INFO_FAILED, resp.status))
    ensures var resp := get(CrateRequest(name));
      resp.status == HTTP_OK ==>
        (r.Ok? <==> resp.body.Some? && Readable(name, version, resp.body.value, get))
    ensures var resp := get(CrateRequest(name));
      resp.status == HTTP_OK && r.Err? ==> r.error == ParseError(INFO_UNPARSED)
    ensures r.Ok? ==> Some(r.value) == DetailsFrom(name, version, get(CrateRequest(name)).body.value, get)
  {
    var resp := get(CrateRequest(name));
    if resp.status != HTTP_OK then Err(StatusError(INFO_FAILED, resp.status))
    else
      match resp.body
      case None => Err(ParseError(INFO_UNPARSED))
      case Some(data) =>
        match DetailsFrom(name, version, data, get)
        case None => Err(ParseError(INFO_UNPARSED))
        case Some(d) => Ok(d)
  }

  /** The summary request answered 200 with the document `data`. */
  predicate SummaryIs(name: string, get: Transport, data: Json) {
    get(CrateRequest(name)) == Response(HTTP_OK, Some(data))
  }

  /** Without a (non-empty) version only the summary is requested: the
      result is the same whatever the index would answer to anything else. */
  lemma CratesInfoOnlyAsksForSummary(name: string, version: Option<string>, g1: Transport, g2: Transport)
    requires !Requested(version)
    requires g1(CrateRequest(name)) == g2(CrateRequest(name))
    ensures GetCratesInfo(name, version, g1) == GetCratesInfo(name, version, g2)
  {
  }

  /** A lookup that answered 200 with a non-empty `version` entry decides
      `yanked` and `license`, and the requested version is reported. */
  lemma CratesInfoUsesVersionDetails(name: string, version: string, get: Transport, data: Json, vdoc: Json)
    requires version != ""
    requires SummaryIs(name, get, data)
    requires get(VersionRequest(name, version)) == Response(HTTP_OK, Some(vdoc))
    requires Has(vdoc, "version") && Truthy(Field(vdoc, "version"))
    requires GetCratesInfo(name, Some(version), get).Ok?
    ensures var vd := Field(vdoc, "version");
      var d := GetCratesInfo(name, Some(version), get).value;
      && vd.JObj?
      && d.version == JStr(version)
      && d.yanked == FieldOr(vd, "yanked", JBool(false))
      && d.license == FieldOr(vd, "license", NO_TEXT)
  {
  }

  /** The fallback of Resolve as DetailsFrom applies it: with no version
      data and a non-empty version list, `versions[0]` decides. */
  lemma ResolvedToNewest(requested: Json, versionData: Json, data: Json)
    requires !Truthy(versionData)
    requires Has(data, "versions") && Truthy(Field(data, "versions"))
    requires Resolve(requested, versionData, data).Some?
    ensures var listed := Field(data, "versions");
      && listed.JArr? && Has(listed.items[0], "num")
      && Resolve(requested, versionData, data).value == Resolution(Field(listed.items[0], "num"), listed.items[0])
      && Truthy(listed.items[0])
  {
    assert FieldOr(data, "versions", JNull) == Field(data, "versions");
    var first := Field(data, "versions").items[0];
    assert HasKey(first.members, "num");
  }

  /** When the lookup yields nothing (not requested, non-200, or an empty
      `version` entry) and the summary lists versions, the newest listed
      version decides the reported version, `yanked` and `license`,
      overriding any requested version. */
  lemma CratesInfoFallsBackToNewest(name: string, version: Option<string>, get: Transport, data: Json)
    requires SummaryIs(name, get, data)
    requires GetCratesInfo(name, version, get).Ok?
    requires LookedUpVersion(name, version, get).Some? && !Truthy(LookedUpVersion(name, version, get).value)
    requires Has(data, "versions") && Truthy(Field(data, "versions"))
    ensures var first := Field(data, "versions").items[0];
      var d := GetCratesInfo(name, version, get).value;
      && Field(data, "versions").JArr? && Has(first, "num")
      && d.version == (if Truthy(Field(first, "num")) then Field(first, "num")
                       else FieldOr(Field(data, "crate"), "max_version", NO_TEXT))
      && d.yanked == FieldOr(first, "yanked", JBool(false))
      && d.license == FieldOr(first, "license", NO_TEXT)
  {
    var d := GetCratesInfo(name, version, get).value;
    assert Some(d) == DetailsFrom(name, version, data, get);
    assert Readable(name, version, data, get);
    ResolvedToNewest(VersionArgument(version), LookedUpVersion(name, version, get).value, data);
  }

  /** When the lookup yields nothing and the summary lists no versions, the
      requested version (else `max_version`, else "") is reported, not
      yanked and without a license. */
  lemma CratesInfoWithoutListedVersions(name: string, version: Option<string>, get: Transport, data: Json)
    requires SummaryIs(name, get, data)
    requires GetCratesInfo(name, version, get).Ok?
    requires LookedUpVersion(name, version, get).Some? && !Truthy(LookedUpVersion(name, version, get).value)
    requires !Truthy(FieldOr(data, "versions", JNull))
    ensures var d := GetCratesInfo(name, version, get).value;
      && d.version == (if Requested(version) then JStr(version.value)
                       else FieldOr(Field(data, "crate"), "max_version", NO_TEXT))
      && d.yanked == JBool(false)
      && d.license == NO_TEXT
  {
  }

  /** A failed per-version lookup of a crate that lists versions answers
      exactly what a request without a version answers. */
  lemma CratesInfoFailedLookupIsLatest(name: string, version: string, get: Transport, data: Json)
    requires version != ""
    requires SummaryIs(name, get, data)
    requires get(VersionRequest(name, version)).status != HTTP_OK
    requires Has(data, "versions") && Truthy(Field(data, "versions"))
    ensures GetCratesInfo(name, Some(version), get) == GetCratesInfo(name, None, get)
  {
    assert LookedUpVersion(name, Some(version), get) == LookedUpVersion(name, None, get);
    var listed := FieldOr(data, "versions", JNull);
    assert listed == Field(data, "versions");
    assert Has(data, "crate") ==>
      Resolve(VersionArgument(Some(version)), NO_OBJECT, data) == Resolve(VersionArgument(None), NO_OBJECT, data);
    assert DetailsFrom(name, Some(version), data, get) == DetailsFrom(name, None, data, get);
  }
}
