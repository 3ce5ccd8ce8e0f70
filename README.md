# mcp-server-pacman, modelled in Dafny

This project models the request-handling core of the pacman MCP server
(`pacman/src/mcp_server_pacman/server.py`). The server answers two tools:

- `search_package` searches one of three package indexes (PyPI, npm, crates.io);
- `package_info` describes one package there.

It also answers six prompts that wrap the same lookups. The model covers:

- the two argument validators, `PackageSearch` and `PackageInfo`;
- the six index adapters: `search_pypi`, `get_pypi_info`, `search_npm`,
  `get_npm_info`, `search_crates` and `get_crates_info`;
- the routing in `call_tool` and `get_prompt`.

All of it is pure logic, so it is written as datatypes, functions and lemmas.
The upstream index is a parameter: a `Transport` is a function from a GET
request (URL plus query parameters) to a response (status code plus the
decoded JSON body, or `None` when decoding raises). Stating the adapters over
that function lets the model say which requests an adapter sends and how the
answer depends on each response.

Files and modules:

- `json.dfy` (`PyJson`): JSON values. It also holds the Python operations the
  adapters apply to them: truthiness, `d[k]`, `d.get(k, default)`,
  `list[i]`, iteration, `[:n]` slicing, and an all-or-nothing list
  comprehension. Each one fails exactly where Python raises.
- `errors.dfy` (`Errors`): the `McpError` codes and the two upstream error
  kinds. A status error is "… - status code N"; a parse error is
  "Failed to parse …".
- `http.dfy` (`Http`): requests, responses and the transport.
- `models.dfy` (`Models`): the validators.
- `pypi.dfy`, `npm.dfy`, `crates.dfy` (`PyPI`, `Npm`, `Crates`): the adapters.
- `server.dfy` (`Server`): tool and prompt routing.

Behaviour of the code worth knowing up front:

- `get_crates_info` with no version data. When the per-version lookup yields
  no data (not requested, non-200, or an empty `version` entry) and
  `versions` is non-empty, the result reports `versions[0]`'s `num`,
  `yanked` and `license` in place of the requested version
  (server.py:327-329; `Crates.CratesInfoFallsBackToNewest`,
  `Crates.CratesInfoFailedLookupIsLatest`).
- The Docker Hub functions (`search_docker_hub`, `get_docker_hub_tags`,
  `get_docker_hub_tag_info`) and the `ENABLE_CACHE` response cache that
  tests/test_docker_integration.py:20-29 imports are not in `server.py`, and
  are not part of this model.
- The PyPI search never reads the response body. It answers placeholder
  entries.

## Model

| member | source | states |
|---|---|---|
| Errors.StatusError | pacman/src/mcp_server_pacman/server.py:72-78 | a non-200 answer is an INTERNAL_ERROR whose message starts with the operation and ends with the status code, and the code reads back from the message |
| Errors.DecimalRoundTrip | pacman/src/mcp_server_pacman/server.py:76 | the decimal rendering of a status code in an error message parses back to the same code |
| Errors.StatusErrorInjective | pacman/src/mcp_server_pacman/server.py:155-160 | two status errors of one operation are equal only for equal status codes |
| Errors.ParseError | pacman/src/mcp_server_pacman/server.py:135-141 | a decoding or missing-key failure is an INTERNAL_ERROR whose message starts "Failed to parse " |
| Errors.ParseErrorIsNotStatusError | pacman/src/mcp_server_pacman/server.py:115-141 | a parse failure never carries the same error as a status failure, so the two stay distinguishable |
| Models.ParseIndex | pacman/src/mcp_server_pacman/server.py:28-31 | the index is accepted exactly when it is one of "pypi", "npm", "crates" |
| Models.ParseSearch | pacman/src/mcp_server_pacman/server.py:26-42 | `PackageSearch` accepts exactly a valid index, a string query and an optional integer limit with 0 < limit < 50; the limit defaults to 5 and the values are the ones given |
| Models.ParseInfo | pacman/src/mcp_server_pacman/server.py:45-59 | `PackageInfo` accepts exactly a valid index, a string name and an optional string or null version; an absent or null version is None |
| PyPI.SearchPypi | pacman/src/mcp_server_pacman/server.py:62-99 | a non-200 answer is the "Failed to search PyPI" status error; otherwise exactly min(limit, 5) placeholders example-0, example-1, … in order, none for a limit of 0 or below |
| PyPI.SearchPypiNamesDistinct | pacman/src/mcp_server_pacman/server.py:84-91 | the placeholder entries of one search have pairwise different names |
| PyPI.SearchPypiIgnoresBody | pacman/src/mcp_server_pacman/server.py:64-92 | the search result depends only on the status code, never on the body |
| PyPI.InfoRequest | pacman/src/mcp_server_pacman/server.py:105-107 | the URL is /pypi/{name}/json, or /pypi/{name}/{version}/json when a non-empty version is given |
| PyPI.DetailsFrom | pacman/src/mcp_server_pacman/server.py:123-134 | the record exists exactly when all six `info` keys and a `releases` dict are present; each field is copied from its key and `releases` lists the release keys in order |
| PyPI.DetailsFromDocument | pacman/src/mcp_server_pacman/server.py:123-134 | reading back a document built from a record gives that record unchanged |
| PyPI.GetPypiInfo | pacman/src/mcp_server_pacman/server.py:102-141 | non-200 is the status error; an undecodable or ill-shaped body is the parse error; otherwise the mapped record |
| PyPI.GetPypiInfoEmptyVersion | pacman/src/mcp_server_pacman/server.py:106-107 | asking for version "" is the same as asking for the latest release |
| Npm.HitFrom | pacman/src/mcp_server_pacman/server.py:164-174 | an entry normalizes exactly when `package` has `name` and `version` and any `publisher` is a dict; the other fields default to "" or {} |
| Npm.SearchEntries | pacman/src/mcp_server_pacman/server.py:175 | the visited entries are the first `limit` entries of `objects` (an absent list is empty) |
| Npm.SearchNpm | pacman/src/mcp_server_pacman/server.py:144-184 | non-200 is the status error; otherwise every visited entry is normalized in order, at most `limit` of them, and any unreadable entry fails the whole search as a parse error |
| Npm.HitFromEntry | pacman/src/mcp_server_pacman/server.py:164-174 | normalizing a registry entry built from a hit gives that hit back |
| Npm.SearchNpmDocument | pacman/src/mcp_server_pacman/server.py:144-184 | a registry listing hits h answers exactly the first `limit` of h, in order |
| Npm.InfoRequest | pacman/src/mcp_server_pacman/server.py:190-192 | the URL is /{name}, or /{name}/{version} when a non-empty version is given |
| Npm.VersionDetailsFrom | pacman/src/mcp_server_pacman/server.py:212-221 | a version document is read flat with its defaults, the name and version defaulting to the requested ones |
| Npm.LatestDetailsFrom | pacman/src/mcp_server_pacman/server.py:223-236 | the latest version is `dist-tags.latest`, its details come from `versions[latest]`, and `versions` lists every version key |
| Npm.GetNpmInfo | pacman/src/mcp_server_pacman/server.py:187-243 | non-200 is the status error; a non-empty version reads the version document, otherwise the latest is resolved; an unreadable body is the parse error |
| Npm.GetNpmInfoEmptyVersion | pacman/src/mcp_server_pacman/server.py:191-192 | asking for version "" is the same as asking for the latest version |
| Npm.LatestDetailsFromDocument | pacman/src/mcp_server_pacman/server.py:223-236 | a package document tagging one of its releases as latest is read as that release's version and metadata, with every version key in document order |
| Npm.GetNpmInfoDocument | pacman/src/mcp_server_pacman/server.py:187-243 | without a version, a registry answering such a package document gives exactly the tagged release and the full version list |
| Crates.HitFrom | pacman/src/mcp_server_pacman/server.py:266-274 | a crate normalizes exactly when it has `name` and `max_version`; the other fields default to "" or 0 |
| Crates.SearchEntries | pacman/src/mcp_server_pacman/server.py:275 | the visited entries are the first `limit` entries of `crates` |
| Crates.SearchCrates | pacman/src/mcp_server_pacman/server.py:246-284 | non-200 is the status error; otherwise every visited crate is normalized in order, at most `limit` of them, and any unreadable crate fails the whole search as a parse error |
| Crates.HitFromEntry | pacman/src/mcp_server_pacman/server.py:266-274 | normalizing a crate entry built from a hit gives that hit back |
| Crates.SearchCratesDocument | pacman/src/mcp_server_pacman/server.py:246-284 | a crates.io listing of hits h answers exactly the first `limit` of h, in order |
| Crates.VersionArgument | pacman/src/mcp_server_pacman/server.py:312 | the version counts as requested exactly when it is a non-empty string |
| Crates.LookedUpVersion | pacman/src/mcp_server_pacman/server.py:309-324 | the version data is {} unless a version was requested and its lookup answered 200; then it is that document's `version` entry, and an unreadable document fails |
| Crates.Resolve | pacman/src/mcp_server_pacman/server.py:327-329 | with no version data and a non-empty version list, `versions[0]` supplies both the version and the version data; otherwise both are kept |
| Crates.VersionNumbers | pacman/src/mcp_server_pacman/server.py:342 | the reported versions are the `num` of every listed version, in order, and a version without `num` fails |
| Crates.DetailsFrom | pacman/src/mcp_server_pacman/server.py:306-346 | the record exists exactly when the summary and lookup are readable; every field is the crate field or its default, and `yanked` and `license` come from the version data |
| Crates.GetCratesInfo | pacman/src/mcp_server_pacman/server.py:287-353 | a non-200 summary is the status error; a failed per-version lookup is never an error; an unreadable summary is the parse error |
| Crates.CratesInfoOnlyAsksForSummary | pacman/src/mcp_server_pacman/server.py:289-312 | without a version, the result depends only on the summary request |
| Crates.CratesInfoUsesVersionDetails | pacman/src/mcp_server_pacman/server.py:311-345 | a successful lookup with a non-empty `version` entry reports the requested version with that entry's `yanked` and `license` |
| Crates.ResolvedToNewest | pacman/src/mcp_server_pacman/server.py:327-329 | with no version data and listed versions, the resolution is `versions[0]` and its `num` |
| Crates.CratesInfoFallsBackToNewest | pacman/src/mcp_server_pacman/server.py:327-345 | when the lookup yields nothing and versions are listed, the newest version decides the reported version, `yanked` and `license`, overriding a requested version |
| Crates.CratesInfoWithoutListedVersions | pacman/src/mcp_server_pacman/server.py:327-345 | when the lookup yields nothing and no versions are listed, the requested version (else `max_version`) is reported, not yanked and without a licence |
| Crates.CratesInfoFailedLookupIsLatest | pacman/src/mcp_server_pacman/server.py:311-329 | a failed per-version lookup of a crate that lists versions answers exactly what a request without a version answers |
| Server.Search | pacman/src/mcp_server_pacman/server.py:465-476 | the chosen adapter's search is returned entry by entry, and its errors pass through unchanged as INTERNAL_ERROR |
| Server.Info | pacman/src/mcp_server_pacman/server.py:492-503 | the chosen adapter's record is returned, and its errors pass through unchanged as INTERNAL_ERROR |
| Server.AdapterErrorsDistinguishable | pacman/src/mcp_server_pacman/server.py:72-99 | for every one of the six adapters, a status failure is never the same error as a parse failure |
| Server.CallTool | pacman/src/mcp_server_pacman/server.py:457-513 | an unknown tool or failed validation is INVALID_PARAMS, and only those; otherwise the adapter's result or its INTERNAL_ERROR; search results stay under 50 |
| Server.SearchPromptIndex | pacman/src/mcp_server_pacman/server.py:517-518 | exactly the three search prompts select an index, the one their name carries |
| Server.InfoPromptIndex | pacman/src/mcp_server_pacman/server.py:548-549 | exactly the three information prompts select an index, the one their name carries |
| Server.Argument | pacman/src/mcp_server_pacman/server.py:555 | `arguments.get("version")` is the value when the key is present and None otherwise |
| Server.SearchPrompt | pacman/src/mcp_server_pacman/server.py:523-546 | a search prompt lists at most five results, and an adapter failure becomes a "Failed to search" result carrying the error message |
| Server.InfoPrompt | pacman/src/mcp_server_pacman/server.py:554-577 | an information prompt reports the record, and an adapter failure becomes a "Failed to get information" result carrying the error message |
| Server.GetPrompt | pacman/src/mcp_server_pacman/server.py:515-711 | only an unknown prompt or a missing query or name raises, always as INVALID_PARAMS; otherwise the search or information prompt |
| Server.SearchPromptAgreesWithTool | pacman/src/mcp_server_pacman/server.py:457-546 | a search prompt lists exactly what `search_package` returns with the default limit, and fails exactly when the tool fails, with the tool's message |
| Server.InfoPromptAgreesWithTool | pacman/src/mcp_server_pacman/server.py:484-577 | an information prompt reports exactly what `package_info` returns, and fails exactly when the tool fails, with the tool's message |

## Left out

- The HTTP client is left out: asynchrony, headers, the User-Agent override, redirects. Only the URL and query parameters of each request are modelled.
- `list_tools`, `list_prompts`, the stdio server loop and the command-line entry point are left out. They hold no logic beyond constant listings.
- Rendering results as text with `json.dumps` is left out. Tool and prompt results carry the JSON value with the fixed header and description strings.
- The response cache and the Docker Hub adapter are not part of this model. They are not in `server.py`.
- A GET that raises (a connection error or a timeout) is not modelled: the transport always answers. In the source such a raise during the crates.io per-version lookup (server.py:314, inside the `try`) becomes the crates.io parse error, and a raise during any first GET escapes as an exception that `get_prompt`'s `except McpError` does not catch.
- JSON numbers are integers only. Floating-point values and Python's `bool`-is-`int` overlap are not modelled.
- JSON objects are ordered key lists and lookups take the first match. Duplicate keys cannot come out of the decoder, so this does not change any result.
- Errors.ParseError: the `: {str(e)}` suffix of the parse error messages is dropped. Exception texts are not modelled.
- Models.ParseSearch: pydantic's lax coercions are not modelled. Strings of digits and whole floats as limits are rejected here, though pydantic converts them.
- Models.ParseInfo: pydantic's lax coercions are not modelled either.
- Server.CallTool: a validation failure carries a fixed message instead of pydantic's error text. The error code is the same.
- Server.CallTool: the "Unsupported package index" branches are left out. Validation admits only the three indexes, so they cannot be reached.
- PyPI.SearchPypi: the "Failed to parse PyPI search results" branch is left out. The placeholder list cannot raise, so it cannot be reached.
- Server.GetPrompt: prompt arguments are a map from strings to strings, the type the prompt protocol gives them. Non-string argument values are not modelled.
