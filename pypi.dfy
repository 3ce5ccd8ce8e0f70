/** The PyPI adapter: `search_pypi` and `get_pypi_info`. */
module PyPI {
  import opened PyJson
  import opened Errors
  import opened Http
  import opened Models

  const SEARCH_URL := "https://pypi.org/search/"
  const API_ROOT := "https://pypi.org/pypi/"

  /** PyPI has no JSON search API: a successful search answers placeholders. */
  const PLACEHOLDER_LIMIT: nat := 5
  const PLACEHOLDER_VERSION := "1.0.0"
  const PLACEHOLDER_DESCRIPTION := "This is a placeholder. Real implementation would parse PyPI HTML response."

  const SEARCH_FAILED := "Failed to search PyPI"
  const INFO_FAILED := "Failed to get package info from PyPI"
  const INFO_UNPARSED := "PyPI package info"

  datatype SearchHit = SearchHit(name: string, version: string, description: string)

  /** One search entry as the result list holds it. */
  function SearchHitJson(h: SearchHit): Json {
    JObj([("name", JStr(h.name)), ("version", JStr(h.version)), ("description", JStr(h.description))])
  }

  function SearchRequest(query: string): Request {
    Request(SEARCH_URL, [("q", JStr(query)), ("page", JNum(1))])
  }

  /** `min(limit, 5)`, where a range of a non-positive length is empty. */
  function PlaceholderCount(limit: int): nat {
    if limit <= 0 then 0 else if limit < PLACEHOLDER_LIMIT then limit else PLACEHOLDER_LIMIT
  }

  function Placeholder(i: nat): SearchHit {
    SearchHit("example-" + Decimal(i), PLACEHOLDER_VERSION, PLACEHOLDER_DESCRIPTION)
  }

  /** `search_pypi`: a non-200 status is an INTERNAL_ERROR naming the status;
      otherwise the body is not read and the answer is `min(limit, 5)`
      placeholders `example-0`, `example-1`, ... in that order. */
  function SearchPypi(query: string, limit: int, get: Transport): (r: Result<seq<SearchHit>>)
    ensures var resp := get(SearchRequest(query));
      resp.status != HTTP_OK ==> r == Err(StatusError(SEARCH_FAILED, resp.status))
    ensures get(SearchRequest(query)).status == HTTP_OK ==> r.Ok?
    ensures r.Ok? ==> |r.value| <= PLACEHOLDER_LIMIT && (0 <= limit ==> |r.value| <= limit)
    ensures r.Ok? ==> |r.value| == PLACEHOLDER_LIMIT || |r.value| == limit || (limit <= 0 && r.value == [])
    ensures r.Ok? && limit <= 0 ==> r.value == []
    ensures r.Ok? && PLACEHOLDER_LIMIT <= limit ==> |r.value| == PLACEHOLDER_LIMIT
    ensures r.Ok? && 0 <= limit <= PLACEHOLDER_LIMIT ==> |r.value| == limit
    ensures r.Ok? ==> forall i :: 0 <= i < |r.value| ==>
      r.value[i] == SearchHit("example-" + Decimal(i), PLACEHOLDER_VERSION, PLACEHOLDER_DESCRIPTION)
  {
    var resp := get(SearchRequest(query));
    if resp.status != HTTP_OK then Err(StatusError(SEARCH_FAILED, resp.status))
    else
      var n := PlaceholderCount(limit);
      Ok(seq(n, i requires 0 <= i < n => Placeholder(i)))
  }

  /** The placeholder entries of one search all have different names. */
  lemma SearchPypiNamesDistinct(query: string, limit: int, get: Transport, i: nat, j: nat)
    requires SearchPypi(query, limit, get).Ok?
    requires i < j < |SearchPypi(query, limit, get).value|
    ensures SearchPypi(query, limit, get).value[i].name != SearchPypi(query, limit, get).value[j].name
  {
    var hits := SearchPypi(query, limit, get).value;
    if hits[i].name == hits[j].name {
      var prefix := "example-";
      assert hits[i].name == prefix + Decimal(i) && hits[j].name == prefix + Decimal(j);
      assert Decimal(i) == hits[i].name[|prefix|..] == hits[j].name[|prefix|..] == Decimal(j);
      DecimalInjective(i, j);
    }
  }

  /** The search result depends on the status code alone, never on the body. */
  lemma SearchPypiIgnoresBody(query: string, limit: int, g1: Transport, g2: Transport)
    requires g1(SearchRequest(query)).status == g2(SearchRequest(query)).status
    ensures SearchPypi(query, limit, g1) == SearchPypi(query, limit, g2)
  {
  }

  /** The package information returned by `get_pypi_info`. The values are
      copied from the document as they are; `releases` is a key list. */
  datatype PackageDetails = PackageDetails(
    name: Json, version: Json, description: Json, author: Json,
    homepage: Json, license: Json, releases: seq<string>)

  function PackageDetailsJson(d: PackageDetails): Json {
    JObj([
      ("name", d.name), ("version", d.version), ("description", d.description),
      ("author", d.author), ("homepage", d.homepage), ("license", d.license),
      ("releases", JArr(seq(|d.releases|, i requires 0 <= i < |d.releases| => JStr(d.releases[i]))))])
  }

  /** `/pypi/{name}/json` for the latest release, `/pypi/{name}/{version}/json`
      for a requested one; an empty version requests the latest. */
  function InfoRequest(name: string, version: Option<string>): (req: Request)
    ensures req.params == []
    ensures !Requested(version) ==> req.url == API_ROOT + name + "/json"
    ensures Requested(version) ==> req.url == API_ROOT + name + "/" + version.value + "/json"
  {
    if Requested(version) then Get(API_ROOT + name + "/" + version.value + "/json")
    else Get(API_ROOT + name + "/json")
  }

  /** Every key the result needs is present: six keys of `info`, and
      `releases` is a dict. */
  predicate InfoShaped(data: Json) {
    && Has(data, "info")
    && Has(Field(data, "info"), "name")
    && Has(Field(data, "info"), "version")
    && Has(Field(data, "info"), "summary")
    && Has(Field(data, "info"), "author")
    && Has(Field(data, "info"), "home_page")
    && Has(Field(data, "info"), "license")
    && Has(data, "releases") && Field(data, "releases").JObj?
  }

  /** The `try` block of `get_pypi_info`: the field mapping, which raises
      unless the document is InfoShaped. */
  function DetailsFrom(data: Json): (r: Option<PackageDetails>)
    ensures r.Some? <==> InfoShaped(data)
    ensures r.Some? ==>
      var info := Field(data, "info");
      && r.value.name == Field(info, "name")
      && r.value.version == Field(info, "version")
      && r.value.description == Field(info, "summary")
      && r.value.author == Field(info, "author")
      && r.value.homepage == Field(info, "home_page")
      && r.value.license == Field(info, "license")
      && r.value.releases == Keys(Field(data, "releases").members)
  {
    var info :- Subscript(data, "info");
    var name :- Subscript(info, "name");
    var version :- Subscript(info, "version");
    var summary :- Subscript(info, "summary");
    var author :- Subscript(info, "author");
    var homePage :- Subscript(info, "home_page");
    var license :- Subscript(info, "license");
    var releases :- Subscript(data, "releases");
    if !releases.JObj? then None
    else Some(PackageDetails(name, version, summary, author, homePage, license, Keys(releases.members)))
  }

  /** A PyPI document describing `d`, its releases mapped to empty file lists. */
  function DocumentFor(d: PackageDetails): Json {
    JObj([
      ("info", JObj([
        ("name", d.name), ("version", d.version), ("summary", d.description),
        ("author", d.author), ("home_page", d.homepage), ("license", d.license)])),
      ("releases", JObj(seq(|d.releases|, i requires 0 <= i < |d.releases| => (d.releases[i], JObj([])))))])
  }

  /** Reading back the document that describes `d` gives `d`: no field is
      lost or moved, and the releases keep their order. */
  lemma DetailsFromDocument(d: PackageDetails)
    ensures DetailsFrom(DocumentFor(d)) == Some(d)
  {
    var doc := DocumentFor(d);
    var info := doc.members[0].1;
    LookupAt(doc.members, 0);
    LookupAt(doc.members, 1);
    forall i | 0 <= i < 6
      ensures Lookup(info.members, info.members[i].0) == Some(info.members[i].1)
    {
      LookupAt(info.members, i);
    }
    assert Keys(doc.members[1].1.members) == d.releases;
  }

  /** `get_pypi_info`: a non-200 status is an INTERNAL_ERROR naming the
      status; an undecodable body or a missing key is the separate
      "Failed to parse PyPI package info" error; otherwise the mapped record. */
  function GetPypiInfo(name: string, version: Option<string>, get: Transport): (r: Result<PackageDetails>)
    ensures var resp := get(InfoRequest(name, version));
      resp.status != HTTP_OK ==> r == Err(StatusError(INFO_FAILED, resp.status))
    ensures var resp := get(InfoRequest(name, version));
      resp.status == HTTP_OK && (resp.body.None? || !InfoShaped(resp.body.value)) ==>
        r == Err(ParseError(INFO_UNPARSED))
    ensures var resp := get(InfoRequest(name, version));
      resp.status == HTTP_OK && resp.body.Some? && InfoShaped(resp.body.value) ==>
        r.Ok? && Some(r.value) == DetailsFrom(resp.body.value)
  {
    var resp := get(InfoRequest(name, version));
    if resp.status != HTTP_OK then Err(StatusError(INFO_FAILED, resp.status))
    else
      match resp.body
      case None => Err(ParseError(INFO_UNPARSED))
      case Some(data) =>
        match DetailsFrom(data)
        case None => Err(ParseError(INFO_UNPARSED))
        case Some(details) => Ok(details)
  }

  /** Asking for version "" is asking for the latest release. */
  lemma GetPypiInfoEmptyVersion(name: string, get: Transport)
    ensures GetPypiInfo(name, Some(""), get) == GetPypiInfo(name, None, get)
  {
  }
}
