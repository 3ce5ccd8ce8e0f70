/** The npm adapter: `search_npm` and `get_npm_info`. */
module Npm {
  import opened PyJson
  import opened Errors
  import opened Http
  import opened Models

  const SEARCH_URL := "https://registry.npmjs.org/-/v1/search"
  const REGISTRY := "https://registry.npmjs.org/"

  const SEARCH_FAILED := "Failed to search npm"
  const SEARCH_UNPARSED := "npm search results"
  const INFO_FAILED := "Failed to get package info from npm"
  const INFO_UNPARSED := "npm package info"

  const NO_TEXT := JStr("")
  const NO_OBJECT := JObj([])

  /** One normalized search entry. */
  datatype SearchHit = SearchHit(
    name: Json, version: Json, description: Json,
    publisher: Json, date: Json, links: Json)

  function SearchHitJson(h: SearchHit): Json {
    JObj([
      ("name", h.name), ("version", h.version), ("description", h.description),
      ("publisher", h.publisher), ("date", h.date), ("links", h.links)])
  }

  function SearchRequest(query: string, limit: int): Request {
    Request(SEARCH_URL, [("text", JStr(query)), ("size", JNum(limit))])
  }

  /** An entry of `objects` can be normalized: its `package` holds `name` and
      `version`, and its `publisher`, when present, is a dict. */
  predicate HitShaped(entry: Json) {
    && Has(entry, "package")
    && Has(Field(entry, "package"), "name")
    && Has(Field(entry, "package"), "version")
    && FieldOr(Field(entry, "package"), "publisher", NO_OBJECT).JObj?
  }

  /** The normalization of one `objects` entry: `name` and `version` are
      required, the rest default to "" or {}. */
  function HitFrom(entry: Json): (r: Option<SearchHit>)
    ensures r.Some? <==> HitShaped(entry)
    ensures r.Some? ==>
      var pkg := Field(entry, "package");
      && r.value.name == Field(pkg, "name")
      && r.value.version == Field(pkg, "version")
      && r.value.description == FieldOr(pkg, "description", NO_TEXT)
      && r.value.publisher == FieldOr(FieldOr(pkg, "publisher", NO_OBJECT), "username", NO_TEXT)
      && r.value.date == FieldOr(pkg, "date", NO_TEXT)
      && r.value.links == FieldOr(pkg, "links", NO_OBJECT)
  {
    var pkg :- Subscript(entry, "package");
    var name :- Subscript(pkg, "name");
    var version :- Subscript(pkg, "version");
    var description :- GetOr(pkg, "description", NO_TEXT);
    var publisher :- GetOr(pkg, "publisher", NO_OBJECT);
    var username :- GetOr(publisher, "username", NO_TEXT);
    var date :- GetOr(pkg, "date", NO_TEXT);
    var links :- GetOr(pkg, "links", NO_OBJECT);
    Some(SearchHit(name, version, description, username, date, links))
  }

  /** The entries visited by `for package in data.get("objects", [])[:limit]`. */
  function SearchEntries(data: Json, limit: int): (r: Option<seq<Json>>)
    ensures r.Some? ==> data.JObj?
    ensures r.Some? && 0 <= limit ==> |r.value| <= limit
    ensures data.JObj? && FieldOr(data, "objects", JArr([])).JArr? ==>
      r == Some(PrefixSlice(FieldOr(data, "objects", JArr([])).items, limit))
  {
    var objects :- GetOr(data, "objects", JArr([]));
    SliceItems(objects, limit)
  }

  /** `search_npm`: a non-200 status is an INTERNAL_ERROR naming the status.
      Otherwise the result normalizes, in order, the entries of `objects`
      that the `[:limit]` slice keeps, and fails to parse as a whole if the
      body does not decode or any of those entries lacks a required key. */
  function SearchNpm(query: string, limit: int, get: Transport): (r: Result<seq<SearchHit>>)
    ensures var resp := get(SearchRequest(query, limit));
      resp.status != HTTP_OK ==> r == Err(StatusError(SEARCH_FAILED, resp.status))
    ensures var resp := get(SearchRequest(query, limit));
      resp.status == HTTP_OK ==>
        (r.Ok? <==>
          && resp.body.Some?
          && SearchEntries(resp.body.value, limit).Some?
          && forall i :: 0 <= i < |SearchEntries(resp.body.value, limit).value| ==>
               HitShaped(SearchEntries(resp.body.value, limit).value[i]))
    ensures var resp := get(SearchRequest(query, limit));
      resp.status == HTTP_OK && r.Err? ==> r.error == ParseError(SEARCH_UNPARSED)
    ensures r.Ok? ==>
      var entries := SearchEntries(get(SearchRequest(query, limit)).body.value, limit).value;
      && |r.value| == |entries|
      && (0 <= limit ==> |r.value| <= limit)
      && forall i :: 0 <= i < |entries| ==> Some(r.value[i]) == HitFrom(entries[i])
  {
    var resp := get(SearchRequest(query, limit));
    if resp.status != HTTP_OK then Err(StatusError(SEARCH_FAILED, resp.status))
    else
      match HitsFrom(resp.body, limit)
      case None => Err(ParseError(SEARCH_UNPARSED))
      case Some(hits) => Ok(hits)
  }

  /** The `try` block of `search_npm`. */
  function HitsFrom(body: Option<Json>, limit: int): Option<seq<SearchHit>> {
    var data :- body;
    var entries :- SearchEntries(data, limit);
    MapAll(entries, HitFrom)
  }

  /** A search document of the registry's shape listing exactly `hits`. */
  function EntryFor(h: SearchHit): Json {
    JObj([("package", JObj([
      ("name", h.name), ("version", h.version), ("description", h.description),
      ("publisher", JObj([("username", h.publisher)])), ("date", h.date), ("links", h.links)]))])
  }

  function SearchDocumentFor(hits: seq<SearchHit>): Json {
    JObj([("objects", JArr(seq(|hits|, i requires 0 <= i < |hits| => EntryFor(hits[i]))))])
  }

  lemma HitFromEntry(h: SearchHit)
    ensures HitFrom(EntryFor(h)) == Some(h)
  {
    var entry := EntryFor(h);
    LookupAt(entry.members, 0);
    var pkg := entry.members[0].1;
    forall i | 0 <= i < 6
      ensures Lookup(pkg.members, pkg.members[i].0) == Some(pkg.members[i].1)
    {
      LookupAt(pkg.members, i);
    }
    LookupAt(pkg.members[3].1.members, 0);
  }

  /** Searching an index that answers the document listing `hits` returns
      the first `limit` of them, in the order listed. */
  lemma {:induction false} SearchNpmDocument(query: string, limit: nat, hits: seq<SearchHit>, get: Transport)
    requires get(SearchRequest(query, limit)) == Response(HTTP_OK, Some(SearchDocumentFor(hits)))
    ensures SearchNpm(query, limit, get) == Ok(PrefixSlice(hits, limit))
  {
    var doc := SearchDocumentFor(hits);
    LookupAt(doc.members, 0);
    var entries := SearchEntries(doc, limit).value;
    assert entries == PrefixSlice(doc.members[0].1.items, limit);
    forall i | 0 <= i < |entries|
      ensures HitFrom(entries[i]) == Some(hits[i])
    {
      HitFromEntry(hits[i]);
    }
    var r := MapAll(entries, HitFrom);
    assert r.Some?;
    assert r.value == PrefixSlice(hits, limit);
  }

  /** The package information returned by `get_npm_info`. `versions` is
      present only for the latest-version form of the answer. */
  datatype PackageDetails = PackageDetails(
    name: Json, version: Json, description: Json, author: Json,
    homepage: Json, license: Json, dependencies: Json,
    versions: Option<seq<string>>)

  function PackageDetailsJson(d: PackageDetails): Json {
    var fields := [
      ("name", d.name), ("version", d.version), ("description", d.description),
      ("author", d.author), ("homepage", d.homepage), ("license", d.license),
      ("dependencies", d.dependencies)];
    match d.versions
    case None => JObj(fields)
    case Some(vs) => JObj(fields + [("versions", JArr(seq(|vs|, i requires 0 <= i < |vs| => JStr(vs[i]))))])
  }

  /** `{registry}/{name}` for the package document, `{registry}/{name}/{version}`
      for a requested version; an empty version requests the package document. */
  function InfoRequest(name: string, version: Option<string>): (req: Request)
    ensures req.params == []
    ensures !Requested(version) ==> req.url == REGISTRY + name
    ensures Requested(version) ==> req.url == REGISTRY + name + "/" + version.value
  {
    if Requested(version) then Get(REGISTRY + name + "/" + version.value) else Get(REGISTRY + name)
  }

  /** The answer for a requested version: the version document read flat,
      `name` and `version` defaulting to the arguments. */
  function VersionDetailsFrom(name: string, version: string, data: Json): (r: Option<PackageDetails>)
    ensures r.Some? <==> data.JObj?
    ensures r.Some? ==>
      && r.value.name == FieldOr(data, "name", JStr(name))
      && r.value.version == FieldOr(data, "version", JStr(version))
      && r.value.description == FieldOr(data, "description", NO_TEXT)
      && r.value.author == FieldOr(data, "author", NO_TEXT)
      && r.value.homepage == FieldOr(data, "homepage", NO_TEXT)
      && r.value.license == FieldOr(data, "license", NO_TEXT)
      && r.value.dependencies == FieldOr(data, "dependencies", NO_OBJECT)
      && r.value.versions.None?
  {
    var n :- GetOr(data, "name", JStr(name));
    var v :- GetOr(data, "version", JStr(version));
    var description :- GetOr(data, "description", NO_TEXT);
    var author :- GetOr(data, "author", NO_TEXT);
    var homepage :- GetOr(data, "homepage", NO_TEXT);
    var license :- GetOr(data, "license", NO_TEXT);
    var dependencies :- GetOr(data, "dependencies", NO_OBJECT);
    Some(PackageDetails(n, v, description, author, homepage, license, dependencies, None))
  }

  /** `data.get("dist-tags", {}).get("latest", "")`, for a document whose
      `dist-tags` (if any) is a dict. */
  function LatestTag(data: Json): Json
    requires data.JObj? && FieldOr(data, "dist-tags", NO_OBJECT).JObj?
  {
    FieldOr(FieldOr(data, "dist-tags", NO_OBJECT), "latest", NO_TEXT)
  }

  /** A package document the latest-version branch can read: `dist-tags`
      and `versions` are dicts when present, the latest tag can be used as
      a key, and the entry it selects (if any) is a dict. */
  predicate LatestShaped(data: Json) {
    && data.JObj?
    && FieldOr(data, "dist-tags", NO_OBJECT).JObj?
    && FieldOr(data, "versions", NO_OBJECT).JObj?
    && !LatestTag(data).JArr? && !LatestTag(data).JObj?
    && GetByValue(FieldOr(data, "versions", NO_OBJECT), LatestTag(data), NO_OBJECT).value.JObj?
  }

  /** The answer without a version: `version` is the `latest` dist-tag
      ("" when missing), the descriptive fields come from the entry of
      `versions` under that tag (each defaulted), and `versions` lists
      every key of `versions` in document order. */
  function LatestDetailsFrom(name: string, data: Json): (r: Option<PackageDetails>)
    ensures r.Some? <==> LatestShaped(data)
    ensures r.Some? ==>
      var versions := FieldOr(data, "versions", NO_OBJECT);
      var latest := GetByValue(versions, LatestTag(data), NO_OBJECT).value;
      && r.value.name == FieldOr(data, "name", JStr(name))
      && r.value.version == LatestTag(data)
      && r.value.description == FieldOr(latest, "description", NO_TEXT)
      && r.value.author == FieldOr(latest, "author", NO_TEXT)
      && r.value.homepage == FieldOr(latest, "homepage", NO_TEXT)
      && r.value.license == FieldOr(latest, "license", NO_TEXT)
      && r.value.dependencies == FieldOr(latest, "dependencies", NO_OBJECT)
      && r.value.versions == Some(Keys(versions.members))
  {
    var tags :- GetOr(data, "dist-tags", NO_OBJECT);
    var latestVersion :- GetOr(tags, "latest", NO_TEXT);
    var versions :- GetOr(data, "versions", NO_OBJECT);
    var latestInfo :- GetByValue(versions, latestVersion, NO_OBJECT);
    var n :- GetOr(data, "name", JStr(name));
    var description :- GetOr(latestInfo, "description", NO_TEXT);
    var author :- GetOr(latestInfo, "author", NO_TEXT);
    var homepage :- GetOr(latestInfo, "homepage", NO_TEXT);
    var license :- GetOr(latestInfo, "license", NO_TEXT);
    var dependencies :- GetOr(latestInfo, "dependencies", NO_OBJECT);
    Some(PackageDetails(n, latestVersion, description, author, homepage, license, dependencies, Some(Keys(versions.members))))
  }

  /** The `try` block of `get_npm_info`. */
  function DetailsFrom(name: string, version: Option<string>, body: Option<Json>): Option<PackageDetails> {
    var data :- body;
    if Requested(version) then VersionDetailsFrom(name, version.value, data)
    else LatestDetailsFrom(name, data)
  }

  /** `get_npm_info`: a non-200 status is an INTERNAL_ERROR naming the
      status; with a (non-empty) version the version document is read flat,
      otherwise the latest version is resolved through `dist-tags`; an
      undecodable or ill-shaped body is the separate parse error. */
  function GetNpmInfo(name: string, version: Option<string>, get: Transport): (r: Result<PackageDetails>)
    ensures var resp := get(InfoRequest(name, version));
      resp.status != HTTP_OK ==> r == Err(StatusError(INFO_FAILED, resp.status))
    ensures var resp := get(InfoRequest(name, version));
      resp.status == HTTP_OK && resp.body.None? ==> r == Err(ParseError(INFO_UNPARSED))
    ensures var resp := get(InfoRequest(name, version));
      resp.status == HTTP_OK && resp.body.Some? && Requested(version) ==>
        match VersionDetailsFrom(name, version.value, resp.body.value)
        case None => r == Err(ParseError(INFO_UNPARSED))
        case Some(d) => r == Ok(d)
    ensures var resp := get(InfoRequest(name, version));
      resp.status == HTTP_OK && resp.body.Some? && !Requested(version) ==>
        match LatestDetailsFrom(name, resp.body.value)
        case None => r == Err(ParseError(INFO_UNPARSED))
        case Some(d) => r == Ok(d)
  {
    var resp := get(InfoRequest(name, version));
    if resp.status != HTTP_OK then Err(StatusError(INFO_FAILED, resp.status))
    else
      match DetailsFrom(name, version, resp.body)
      case None => Err(ParseError(INFO_UNPARSED))
      case Some(d) => Ok(d)
  }

  /** Asking for version "" is asking for the latest version. */
  lemma GetNpmInfoEmptyVersion(name: string, get: Transport)
    ensures GetNpmInfo(name, Some(""), get) == GetNpmInfo(name, None, get)
  {
  }

  /** The metadata of one published version, as a package document keeps it
      under `versions`. */
  datatype Release = Release(
    description: Json, author: Json, homepage: Json, license: Json, dependencies: Json)

  function ReleaseJson(r: Release): Json {
    JObj([
      ("description", r.description), ("author", r.author), ("homepage", r.homepage),
      ("license", r.license), ("dependencies", r.dependencies)])
  }

  /** A package document named `name` that lists `releases` in order and
      tags the one at position `latest` as the latest. */
  function PackageDocumentFor(name: Json, releases: seq<(string, Release)>, latest: nat): Json
    requires latest < |releases|
  {
    JObj([
      ("name", name),
      ("dist-tags", JObj([("latest", JStr(releases[latest].0))])),
      ("versions", JObj(seq(|releases|, i requires 0 <= i < |releases| => (releases[i].0, ReleaseJson(releases[i].1)))))])
  }

  /** The answer the latest-version branch should give for that document:
      the tagged version with its metadata, and every version in order. */
  function LatestAnswer(name: Json, releases: seq<(string, Release)>, latest: nat): PackageDetails
    requires latest < |releases|
  {
    var r := releases[latest].1;
    PackageDetails(name, JStr(releases[latest].0), r.description, r.author, r.homepage, r.license,
      r.dependencies, Some(seq(|releases|, i requires 0 <= i < |releases| => releases[i].0)))
  }

  /** Reading a package document resolves the `latest` tag to its release:
      no field is lost or taken from another release, and the version list
      keeps the document's order. */
  lemma LatestDetailsFromDocument(pkg: string, name: Json, releases: seq<(string, Release)>, latest: nat)
    requires latest < |releases|
    requires forall j :: 0 <= j < latest ==> releases[j].0 != releases[latest].0
    ensures LatestDetailsFrom(pkg, PackageDocumentFor(name, releases, latest)) == Some(LatestAnswer(name, releases, latest))
  {
    var doc := PackageDocumentFor(name, releases, latest);
    LookupAt(doc.members, 0);
    LookupAt(doc.members, 1);
    LookupAt(doc.members, 2);
    var tags := doc.members[1].1;
    LookupAt(tags.members, 0);
    var versions := doc.members[2].1;
    LookupAt(versions.members, latest);
    var entry := versions.members[latest].1;
    forall i | 0 <= i < 5
      ensures Lookup(entry.members, entry.members[i].0) == Some(entry.members[i].1)
    {
      LookupAt(entry.members, i);
    }
    assert Keys(versions.members) == seq(|releases|, i requires 0 <= i < |releases| => releases[i].0);
  }

  /** `get_npm_info` without a version, against a registry that answers the
      package document: the tagged release, as in the express example of
      the tests (latest 4.18.2, versions 4.18.2 and 4.18.1). */
  lemma GetNpmInfoDocument(pkg: string, name: Json, releases: seq<(string, Release)>, latest: nat, get: Transport)
    requires latest < |releases|
    requires forall j :: 0 <= j < latest ==> releases[j].0 != releases[latest].0
    requires get(InfoRequest(pkg, None)) == Response(HTTP_OK, Some(PackageDocumentFor(name, releases, latest)))
    ensures GetNpmInfo(pkg, None, get) == Ok(LatestAnswer(name, releases, latest))
  {
    LatestDetailsFromDocument(pkg, name, releases, latest);
  }
}
