/** The two argument models of the tools, `PackageSearch` and `PackageInfo`,
    and what their validation accepts. */
module Models {
  import opened PyJson

  /** The package indexes the tools accept (the `Literal["pypi", "npm", "crates"]`). */
  datatype PackageIndex = PyPI | Npm | Crates

  function IndexName(index: PackageIndex): string {
    match index
    case PyPI => "pypi"
    case Npm => "npm"
    case Crates => "crates"
  }

  /** Validation of the `index` argument: exactly one of the three names. */
  function ParseIndex(v: Json): (r: Option<PackageIndex>)
    ensures r.Some? <==> v in {JStr("pypi"), JStr("npm"), JStr("crates")}
    ensures r.Some? ==> v == JStr(IndexName(r.value))
  {
    match v
    case JStr(s) =>
      if s == "pypi" then Some(PyPI)
      else if s == "npm" then Some(Npm)
      else if s == "crates" then Some(Crates)
      else None
    case _ => None
  }

  const DEFAULT_LIMIT: int := 5
  /** The limit must lie strictly between these bounds (`gt=0, lt=50`). */
  const LIMIT_ABOVE: int := 0
  const LIMIT_BELOW: int := 50

  datatype PackageSearch = PackageSearch(index: PackageIndex, query: string, limit: int)

  datatype PackageInfo = PackageInfo(index: PackageIndex, name: string, version: Option<string>)

  /** `if version:` in the adapters: a version given as the empty string
      counts as no version at all. */
  predicate Requested(version: Option<string>) {
    version.Some? && version.value != ""
  }

  predicate IndexAccepted(arguments: seq<(string, Json)>) {
    var index := Lookup(arguments, "index");
    index.Some? && ParseIndex(index.value).Some?
  }

  predicate TextAccepted(arguments: seq<(string, Json)>, key: string) {
    var text := Lookup(arguments, key);
    text.Some? && text.value.JStr?
  }

  /** A limit is optional; when present it is an integer with 0 < limit < 50. */
  predicate LimitAccepted(limit: Option<Json>) {
    limit.None? || (limit.value.JNum? && LIMIT_ABOVE < limit.value.n < LIMIT_BELOW)
  }

  /** A version is optional and may be null; when present it is a string. */
  predicate VersionAccepted(version: Option<Json>) {
    version.None? || version.value.JNull? || version.value.JStr?
  }

  /** `PackageSearch(**arguments)`: `None` when validation raises. */
  function ParseSearch(arguments: seq<(string, Json)>): (r: Option<PackageSearch>)
    ensures r.Some? <==>
      IndexAccepted(arguments) && TextAccepted(arguments, "query") && LimitAccepted(Lookup(arguments, "limit"))
    ensures r.Some? ==> LIMIT_ABOVE < r.value.limit < LIMIT_BELOW
    ensures r.Some? ==> Lookup(arguments, "index") == Some(JStr(IndexName(r.value.index)))
    ensures r.Some? ==> Lookup(arguments, "query") == Some(JStr(r.value.query))
    ensures r.Some? && Lookup(arguments, "limit").None? ==> r.value.limit == DEFAULT_LIMIT
    ensures r.Some? && Lookup(arguments, "limit").Some? ==> Lookup(arguments, "limit") == Some(JNum(r.value.limit))
  {
    var indexArg :- Lookup(arguments, "index");
    var index :- ParseIndex(indexArg);
    var query :- Lookup(arguments, "query");
    if !query.JStr? then None
    else
      match Lookup(arguments, "limit")
      case None => Some(PackageSearch(index, query.s, DEFAULT_LIMIT))
      case Some(limit) =>
        if limit.JNum? && LIMIT_ABOVE < limit.n < LIMIT_BELOW then Some(PackageSearch(index, query.s, limit.n))
        else None
  }

  /** `PackageInfo(**arguments)`: `None` when validation raises. */
  function ParseInfo(arguments: seq<(string, Json)>): (r: Option<PackageInfo>)
    ensures r.Some? <==>
      IndexAccepted(arguments) && TextAccepted(arguments, "name") && VersionAccepted(Lookup(arguments, "version"))
    ensures r.Some? ==> Lookup(arguments, "index") == Some(JStr(IndexName(r.value.index)))
    ensures r.Some? ==> Lookup(arguments, "name") == Some(JStr(r.value.name))
    ensures r.Some? ==>
      (r.value.version.None? <==> Lookup(arguments, "version") in {None, Some(JNull)})
    ensures r.Some? && r.value.version.Some? ==> Lookup(arguments, "version") == Some(JStr(r.value.version.value))
  {
    var indexArg :- Lookup(arguments, "index");
    var index :- ParseIndex(indexArg);
    var name :- Lookup(arguments, "name");
    if !name.JStr? then None
    else
      match Lookup(arguments, "version")
      case None => Some(PackageInfo(index, name.s, None))
      case Some(version) =>
        if version.JNull? then Some(PackageInfo(index, name.s, None))
        else if version.JStr? then Some(PackageInfo(index, name.s, Some(version.s)))
        else None
  }
}
