/** The request routing of the server: the `search_package` and
    `package_info` tools and the six prompts, each dispatching to the adapter
    of the chosen index. */
module Server {
  import opened PyJson
  import opened Errors
  import opened Http
  import opened Models
  import PyPI
  import Npm
  import Crates

  /** The error message of a failed argument validation. The validator's
      own wording is not modelled: only that it is an INVALID_PARAMS error. */
  const INVALID_ARGUMENTS := "Invalid arguments"

  /** What the tool results carry before they are rendered as text:
      `Search results for '{query}' on {index}:` or
      `Package information for {name} on {index}:`, then the JSON. */
  datatype ToolOutput =
    | SearchResults(index: PackageIndex, query: string, results: seq<Json>)
    | PackageReport(index: PackageIndex, name: string, info: Json)

  /** The adapter search of one index, its entries as JSON objects. */
  function Search(index: PackageIndex, query: string, limit: int, get: Transport): (r: Result<seq<Json>>)
    ensures r.Err? ==> r.error.code == INTERNAL_ERROR
    ensures r.Ok? && 0 <= limit ==> |r.value| <= limit
    ensures index == PyPI ==>
      var a := PyPI.SearchPypi(query, limit, get);
      && (r.Ok? <==> a.Ok?)
      && (r.Err? ==> r.error == a.error)
      && (r.Ok? ==> |r.value| == |a.value| && forall i :: 0 <= i < |a.value| ==> r.value[i] == PyPI.SearchHitJson(a.value[i]))
    ensures index == Npm ==>
      var a := Npm.SearchNpm(query, limit, get);
      && (r.Ok? <==> a.Ok?)
      && (r.Err? ==> r.error == a.error)
      && (r.Ok? ==> |r.value| == |a.value| && forall i :: 0 <= i < |a.value| ==> r.value[i] == Npm.SearchHitJson(a.value[i]))
    ensures index == Crates ==>
      var a := Crates.SearchCrates(query, limit, get);
      && (r.Ok? <==> a.Ok?)
      && (r.Err? ==> r.error == a.error)
      && (r.Ok? ==> |r.value| == |a.value| && forall i :: 0 <= i < |a.value| ==> r.value[i] == Crates.SearchHitJson(a.value[i]))
  {
    match index
    case PyPI =>
      (match PyPI.SearchPypi(query, limit, get)
       case Err(e) => Err(e)
       case Ok(hits) => Ok(seq(|hits|, i requires 0 <= i < |hits| => PyPI.SearchHitJson(hits[i]))))
    case Npm =>
      (match Npm.SearchNpm(query, limit, get)
       case Err(e) => Err(e)
       case Ok(hits) => Ok(seq(|hits|, i requires 0 <= i < |hits| => Npm.SearchHitJson(hits[i]))))
    case Crates =>
      (match Crates.SearchCrates(query, limit, get)
       case Err(e) => Err(e)
       case Ok(hits) => Ok(seq(|hits|, i requires 0 <= i < |hits| => Crates.SearchHitJson(hits[i]))))
  }

  /** The adapter package lookup of one index, its record as a JSON object. */
  function Info(index: PackageIndex, name: string, version: Option<string>, get: Transport): (r: Result<Json>)
    ensures r.Err? ==> r.error.code == INTERNAL_ERROR
    ensures index == PyPI ==>
      var a := PyPI.GetPypiInfo(name, version, get);
      && (r.Ok? <==> a.Ok?)
      && (r.Err? ==> r.error == a.error)
      && (r.Ok? ==> r.value == PyPI.PackageDetailsJson(a.value))
    ensures index == Npm ==>
      var a := Npm.GetNpmInfo(name, version, get);
      && (r.Ok? <==> a.Ok?)
      && (r.Err? ==> r.error == a.error)
      && (r.Ok? ==> r.value == Npm.PackageDetailsJson(a.value))
    ensures index == Crates ==>
      var a := Crates.GetCratesInfo(name, version, get);
      && (r.Ok? <==> a.Ok?)
      && (r.Err? ==> r.error == a.error)
      && (r.Ok? ==> r.value == Crates.PackageDetailsJson(a.value))
  {
    match index
    case PyPI =>
      (match PyPI.GetPypiInfo(name, version, get)
       case Err(e) => Err(e)
       case Ok(d) => Ok(PyPI.PackageDetailsJson(d)))
    case Npm =>
      (match Npm.GetNpmInfo(name, version, get)
       case Err(e) => Err(e)
       case Ok(d) => Ok(Npm.PackageDetailsJson(d)))
    case Crates =>
      (match Crates.GetCratesInfo(name, version, get)
       case Err(e) => Err(e)
       case Ok(d) => Ok(Crates.PackageDetailsJson(d)))
  }

  /** Every adapter's status failures differ from every parse failure, so a
      caller can tell an index that answered badly from one that answered
      something unreadable. */
  lemma AdapterErrorsDistinguishable(status: nat, parsed: string)
    ensures StatusError(PyPI.SEARCH_FAILED, status) != ParseError(parsed)
    ensures StatusError(PyPI.INFO_FAILED, status) != ParseError(parsed)
    ensures StatusError(Npm.SEARCH_FAILED, status) != ParseError(parsed)
    ensures StatusError(Npm.INFO_FAILED, status) != ParseError(parsed)
    ensures StatusError(Crates.SEARCH_FAILED, status) != ParseError(parsed)
    ensures StatusError(Crates.INFO_FAILED, status) != ParseError(parsed)
  {
    ParseErrorIsNotStatusError(PyPI.SEARCH_FAILED, status, parsed);
    ParseErrorIsNotStatusError(PyPI.INFO_FAILED, status, parsed);
    ParseErrorIsNotStatusError(Npm.SEARCH_FAILED, status, parsed);
    ParseErrorIsNotStatusError(Npm.INFO_FAILED, status, parsed);
    ParseErrorIsNotStatusError(Crates.SEARCH_FAILED, status, parsed);
    ParseErrorIsNotStatusError(Crates.INFO_FAILED, status, parsed);
  }

  const SEARCH_TOOL := "search_package"
  const INFO_TOOL := "package_info"

  /** `call_tool`. Arguments that fail validation and unknown tool names are
      INVALID_PARAMS errors; every adapter failure passes through as the
      INTERNAL_ERROR it is, so the two kinds of error never mix. */
  function CallTool(name: string, arguments: seq<(string, Json)>, get: Transport): (r: Result<ToolOutput>)
    ensures name != SEARCH_TOOL && name != INFO_TOOL ==>
      r == Err(McpError(INVALID_PARAMS, "Unknown tool: " + name))
    ensures r.Err? ==>
      (r.error.code == INVALID_PARAMS <==>
        || (name != SEARCH_TOOL && name != INFO_TOOL)
        || (name == SEARCH_TOOL && ParseSearch(arguments).None?)
        || (name == INFO_TOOL && ParseInfo(arguments).None?))
    ensures r.Err? ==> r.error.code in {INVALID_PARAMS, INTERNAL_ERROR}
    ensures name == SEARCH_TOOL && ParseSearch(arguments).Some? ==>
      var a := ParseSearch(arguments).value;
      var s := Search(a.index, a.query, a.limit, get);
      && (r.Ok? <==> s.Ok?)
      && (r.Err? ==> r.error == s.error)
      && (r.Ok? ==> r.value == SearchResults(a.index, a.query, s.value) && |r.value.results| < LIMIT_BELOW)
    ensures name == INFO_TOOL && ParseInfo(arguments).Some? ==>
      var a := ParseInfo(arguments).value;
      var s := Info(a.index, a.name, a.version, get);
      && (r.Ok? <==> s.Ok?)
      && (r.Err? ==> r.error == s.error)
      && (r.Ok? ==> r.value == PackageReport(a.index, a.name, s.value))
  {
    if name == SEARCH_TOOL then
      match ParseSearch(arguments)
      case None => Err(McpError(INVALID_PARAMS, INVALID_ARGUMENTS))
      case Some(a) =>
        match Search(a.index, a.query, a.limit, get)
        case Err(e) => Err(e)
        case Ok(results) => Ok(SearchResults(a.index, a.query, results))
    else if name == INFO_TOOL then
      match ParseInfo(arguments)
      case None => Err(McpError(INVALID_PARAMS, INVALID_ARGUMENTS))
      case Some(a) =>
        match Info(a.index, a.name, a.version, get)
        case Err(e) => Err(e)
        case Ok(info) => Ok(PackageReport(a.index, a.name, info))
    else Err(McpError(INVALID_PARAMS, "Unknown tool: " + name))
  }

  /** The search prompt for each index, and the index each one searches. */
  function SearchPromptIndex(name: string): (r: Option<PackageIndex>)
    ensures r.Some? <==> name in {"search_pypi", "search_npm", "search_crates"}
    ensures r.Some? ==> name == "search_" + IndexName(r.value)
  {
    if name == "search_pypi" then Some(PyPI)
    else if name == "search_npm" then Some(Npm)
    else if name == "search_crates" then Some(Crates)
    else None
  }

  /** The package information prompt for each index. */
  function InfoPromptIndex(name: string): (r: Option<PackageIndex>)
    ensures r.Some? <==> name in {"pypi_info", "npm_info", "crates_info"}
    ensures r.Some? ==> name == IndexName(r.value) + "_info"
  {
    if name == "pypi_info" then Some(PyPI)
    else if name == "npm_info" then Some(Npm)
    else if name == "crates_info" then Some(Crates)
    else None
  }

  /** How the prompts name the index to the user. */
  function DisplayName(index: PackageIndex): string {
    match index
    case PyPI => "PyPI"
    case Npm => "npm"
    case Crates => "crates.io"
  }

  /** The one user message of a prompt: a header over a JSON payload, or
      the text of the error that the lookup raised. */
  datatype PromptBody = Listing(header: string, payload: Json) | Failure(text: string)

  datatype PromptResult = PromptResult(description: string, body: PromptBody)

  const QUERY_REQUIRED := "Search query is required"
  const NAME_REQUIRED := "Package name is required"

  /** `arguments.get(key)` on the prompt arguments. */
  function Argument(arguments: map<string, string>, key: string): (r: Option<string>)
    ensures r.Some? <==> key in arguments
    ensures r.Some? ==> r.value == arguments[key]
  {
    if key in arguments then Some(arguments[key]) else None
  }

  /** The search prompts: five results at most, and an upstream failure
      becomes a "Failed to search" result rather than an error. */
  function SearchPrompt(index: PackageIndex, query: string, get: Transport): (r: PromptResult)
    ensures Search(index, query, DEFAULT_LIMIT, get).Ok? ==>
      && r.description == "Search results for '" + query + "' on " + DisplayName(index)
      && r.body == Listing("Results for '" + query + "':", JArr(Search(index, query, DEFAULT_LIMIT, get).value))
      && |r.body.payload.items| <= DEFAULT_LIMIT
    ensures Search(index, query, DEFAULT_LIMIT, get).Err? ==>
      r == PromptResult("Failed to search for '" + query + "'", Failure(Search(index, query, DEFAULT_LIMIT, get).error.message))
  {
    match Search(index, query, DEFAULT_LIMIT, get)
    case Ok(results) =>
      PromptResult("Search results for '" + query + "' on " + DisplayName(index), Listing("Results for '" + query + "':", JArr(results)))
    case Err(e) =>
      PromptResult("Failed to search for '" + query + "'", Failure(e.message))
  }

  /** The package information prompts; an upstream failure becomes a
      "Failed to get information" result rather than an error. */
  function InfoPrompt(index: PackageIndex, name: string, version: Option<string>, get: Transport): (r: PromptResult)
    ensures Info(index, name, version, get).Ok? ==>
      r == PromptResult("Information for " + name + " on " + DisplayName(index),
                        Listing("Package information:", Info(index, name, version, get).value))
    ensures Info(index, name, version, get).Err? ==>
      r == PromptResult("Failed to get information for " + name, Failure(Info(index, name, version, get).error.message))
  {
    match Info(index, name, version, get)
    case Ok(info) =>
      PromptResult("Information for " + name + " on " + DisplayName(index), Listing("Package information:", info))
    case Err(e) =>
      PromptResult("Failed to get information for " + name, Failure(e.message))
  }

  /** `get_prompt`. Only an unknown prompt or a missing required argument
      raises, and then always INVALID_PARAMS; failures of the index are
      reported inside the prompt result. */
  function GetPrompt(name: string, arguments: Option<map<string, string>>, get: Transport): (r: Result<PromptResult>)
    ensures r.Err? ==> r.error.code == INVALID_PARAMS
    ensures SearchPromptIndex(name).None? && InfoPromptIndex(name).None? ==>
      r == Err(McpError(INVALID_PARAMS, "Unknown prompt: " + name))
    ensures SearchPromptIndex(name).Some? ==>
      if arguments.None? || "query" !in arguments.value then r == Err(McpError(INVALID_PARAMS, QUERY_REQUIRED))
      else r == Ok(SearchPrompt(SearchPromptIndex(name).value, arguments.value["query"], get))
    ensures InfoPromptIndex(name).Some? ==>
      if arguments.None? || "name" !in arguments.value then r == Err(McpError(INVALID_PARAMS, NAME_REQUIRED))
      else r == Ok(InfoPrompt(InfoPromptIndex(name).value, arguments.value["name"], Argument(arguments.value, "version"), get))
  {
    match SearchPromptIndex(name)
    case Some(index) =>
      if arguments.None? || "query" !in arguments.value then Err(McpError(INVALID_PARAMS, QUERY_REQUIRED))
      else Ok(SearchPrompt(index, arguments.value["query"], get))
    case None =>
      match InfoPromptIndex(name)
      case Some(index) =>
        if arguments.None? || "name" !in arguments.value then Err(McpError(INVALID_PARAMS, NAME_REQUIRED))
        else Ok(InfoPrompt(index, arguments.value["name"], Argument(arguments.value, "version"), get))
      case None => Err(McpError(INVALID_PARAMS, "Unknown prompt: " + name))
  }

  /** The arguments a client passes to `search_package` for a plain search. */
  function SearchArguments(index: PackageIndex, query: string): seq<(string, Json)> {
    [("index", JStr(IndexName(index))), ("query", JStr(query))]
  }

  /** A search prompt lists exactly what the `search_package` tool returns
      for the same index and query with the default limit, and fails
      exactly when the tool fails, with the tool's error message. */
  lemma SearchPromptAgreesWithTool(index: PackageIndex, query: string, get: Transport)
    ensures var tool := CallTool(SEARCH_TOOL, SearchArguments(index, query), get);
      var prompt := GetPrompt("search_" + IndexName(index), Some(map["query" := query]), get);
      && prompt.Ok?
      && (tool.Ok? <==> prompt.value.body.Listing?)
      && (tool.Ok? ==> prompt.value.body.payload == JArr(tool.value.results))
      && (tool.Err? ==> prompt.value.body == Failure(tool.error.message))
  {
    var args := SearchArguments(index, query);
    LookupAt(args, 0);
    LookupAt(args, 1);
    assert ParseSearch(args) == Some(PackageSearch(index, query, DEFAULT_LIMIT));
  }

  /** The arguments a client passes to `package_info`. */
  function InfoArguments(index: PackageIndex, name: string, version: Option<string>): seq<(string, Json)> {
    [("index", JStr(IndexName(index))), ("name", JStr(name))]
      + (if version.Some? then [("version", JStr(version.value))] else [])
  }

  /** The arguments of the package information prompt. */
  function InfoPromptArguments(name: string, version: Option<string>): map<string, string> {
    if version.Some? then map["name" := name, "version" := version.value] else map["name" := name]
  }

  /** A package information prompt reports exactly what the `package_info`
      tool returns for the same index, name and version, and fails exactly
      when the tool fails, with the tool's error message. */
  lemma InfoPromptAgreesWithTool(index: PackageIndex, name: string, version: Option<string>, get: Transport)
    ensures var tool := CallTool(INFO_TOOL, InfoArguments(index, name, version), get);
      var prompt := GetPrompt(IndexName(index) + "_info", Some(InfoPromptArguments(name, version)), get);
      && prompt.Ok?
      && (tool.Ok? <==> prompt.value.body.Listing?)
      && (tool.Ok? ==> prompt.value.body.payload == tool.value.info)
      && (tool.Err? ==> prompt.value.body == Failure(tool.error.message))
  {
    var args := InfoArguments(index, name, version);
    LookupAt(args, 0);
    LookupAt(args, 1);
    if version.Some? {
      LookupAt(args, 2);
    } else {
      assert !HasKey(args, "version");
    }
    assert ParseInfo(args) == Some(PackageInfo(index, name, version));
  }
}
