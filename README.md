# rnv-python station directory, in Dafny

A model of `rnv_api.py`, the bindings of a command-line client for the
real-time API of the RNV transit network. Its only state is the
process-wide `stations` cache. The cache starts unpopulated, a station
lookup fills it on first use, and `get_stations` overwrites it. Over that
cache the module answers three queries: a station by short code, a station
by long name (case-insensitive), and every station whose long name contains
a text. `get_hafasid_from_name` turns a code or a name into a station id.
The rest of the module sends HTTP requests and validates what comes back:
departures are rejected when the payload carries the no-data colour, and
the news and ticker counts are read from a `{number:"N"}` body.

Modules:

- `Wrappers`: `Option` and `Result`.
- `Text`: ASCII models of `str.upper`, `str.casefold` and `str.isupper`, and the substring test `in`.
- `Search`: first match and in-order filter over a sequence, with their specifications.
- `Stations`: the `Station` record, the three lookups and the code/name dispatch, as pure functions of the cached list.
- `Http`: a reply as an input (no connection, or a status and a decoded body), the error kinds, and the status-200 check.
- `Directory`: the `StationDirectory` class holding the cache. Its methods are `get_stations` and the finders that fill the cache on first use. A ghost counter of fetches shows that a finder fetches only when the cache is unpopulated, while `get_stations` fetches on every call.
- `Api`: the departures request parameters and response check, the news and ticker pass-through, and the count parser.

Where the code does what its docstrings do not say, or say differently, the model follows the code:

- `data.get('color', 0x464d59)` (rnv_api.py:165) makes a departures payload with no `color` "Not Found".
- The count functions return the digit string (rnv_api.py:249, 295), not an `int` as their docstrings say (rnv_api.py:232, 278).
- A body that does not match the count pattern makes `m.group(1)` fail on `None` (rnv_api.py:248-249). The model gives it its own error, `NoCountMatch`.
- `find_station_by_short_name` is documented as case-insensitive (rnv_api.py:50). Only the query is upper-cased, and stored short names are compared as they are (rnv_api.py:65-66). A station stored with a lower-case short name is never found.
- `get_departures` is documented to return a list (rnv_api.py:143-144). It returns the whole decoded object `data` (rnv_api.py:166).
- The final `return hafasid` of `get_hafasid_from_name` (rnv_api.py:127) can never run. Both branches return before it.

A remote call is a parameter, not an action. The finders and `get_stations`
take the reply the stations endpoint would give. `get_departures` takes the
service as a function from the request parameters to the reply. The count
and pass-through endpoints take their reply directly.

## Model

| member | source | states |
|---|---|---|
| `Text.Upper` | rnv_api.py:65 | upper-casing keeps the length and maps each character by the ASCII upper-case rule |
| `Text.Casefold` | rnv_api.py:87 | case-folding keeps the length and maps each character by the ASCII lower-case rule |
| `Text.IsUpper` | rnv_api.py:123 | `isupper` holds exactly when the string has at least one upper-case letter and no lower-case letter, so digits and spaces beside upper-case letters are allowed |
| `Text.Contains` | rnv_api.py:106 | the substring test holds whenever the query is a prefix of the text, and never for a query longer than the text |
| `Text.CasefoldUpper` | rnv_api.py:87 | a string and its upper-cased form fold to the same text, so the long-name comparisons ignore case |
| `Text.UpperIdempotent` | rnv_api.py:65 | upper-casing twice is upper-casing once |
| `Text.UpperOfIsUpper` | rnv_api.py:123-124 | a string `isupper` accepts is unchanged by `upper`, so on the short-name path the query is compared as given |
| `Text.ContainsIffOccurs` | rnv_api.py:106 | the substring test holds exactly when the query occurs at some position of the text |
| `Text.EmptyContained` | rnv_api.py:106 | the empty query occurs in every long name |
| `Search.First` | rnv_api.py:66 | `next` over a filtering generator: no result exactly when no element matches, else the element at the first matching position |
| `Search.FirstAt` | rnv_api.py:88-89 | when position k is the first match, the lookup returns exactly the element at k |
| `Search.Filter` | rnv_api.py:106 | the filter keeps only matching elements, loses no matching element, and adds nothing |
| `Search.FilterIsSubsequence` | rnv_api.py:106 | the filtered result is a subsequence of the input, so order is kept |
| `Search.FilterCounts` | rnv_api.py:106 | each matching value is kept as often as it occurs, and each non-matching value is dropped |
| `Search.FilterAll` | rnv_api.py:106 | a test every element passes filters nothing out |
| `Stations.FindByShortName` | rnv_api.py:63-67 | the first station whose stored short name equals the upper-cased query; not found exactly when no stored short name equals it |
| `Stations.FindByLongName` | rnv_api.py:85-89 | the first station whose case-folded long name equals the case-folded query; not found exactly when none does |
| `Stations.SearchByLongName` | rnv_api.py:103-106 | every returned station's case-folded long name contains the case-folded query, every such cached station is returned, and nothing else is |
| `Stations.SearchIsSubsequence` | rnv_api.py:106 | the substring search result is in cache order |
| `Stations.SearchCounts` | rnv_api.py:106 | a matching station appears as often as in the cache, and a non-matching one not at all |
| `Stations.SearchEmptyQuery` | rnv_api.py:105-106 | the empty query returns the whole cache |
| `Stations.LongNameMatchIsSearchHit` | rnv_api.py:105-106 | a station found by the exact long-name lookup is also listed by the substring search |
| `Stations.HafasIdFromName` | rnv_api.py:122-127 | a 4-character `isupper` query takes the short-name lookup, any other query the long-name lookup; the id of the found station, or not found from that path |
| `Stations.LooksLikeShortName` | rnv_api.py:123 | a query is code-shaped exactly when it has 4 characters, at least one upper-case letter and no lower-case letter; such a query is its own upper-case form |
| `Stations.DispatchExamples` | rnv_api.py:123-126 | "A1B2" takes the short-name path; "1234", "Hbhf" and the 5-character "HBHF " take the long-name path |
| `Stations.StoredShortNameNotNormalised` | rnv_api.py:65-66 | a station stored with the short name "hbhf" is not found by the query "hbhf", because only the query is upper-cased |
| `Stations.ResolveByCode` | rnv_api.py:123-124 | a 4-character upper-case code resolves to the id of the first station that has it as its short name, so duplicates are allowed and the first wins |
| `Stations.ResolveByUniqueCode` | rnv_api.py:123-124 | with unique short names, a station's 4-character upper-case code resolves to that station's id |
| `Stations.LookupsIgnoreQueryCase` | rnv_api.py:65-106 | upper-casing the query first changes neither the short-name lookup, nor the long-name lookup, nor the substring search |
| `Stations.ResolveByLongName` | rnv_api.py:125-126 | a query that is not code-shaped resolves to the id of the first station whose long name matches it case-insensitively |
| `Stations.ResolveNotFound` | rnv_api.py:122-127 | resolution fails exactly when the chosen path has no match; a code-shaped query is never tried against long names |
| `Stations.MainStationScenario` | rnv_api.py:109-127 | with one station HBHF/Hauptbahnhof/100: "HBHF" and "hauptbahnhof" give "100", "Haupt" is not found, and the substring search for "Haupt" finds the station |
| `Http.CheckStatus` | rnv_api.py:197-203 | a 200 reply yields its body; any other status or a failed connection is an error |
| `Directory.Load` | rnv_api.py:63-64 | a finder searches the cached list when there is one, and otherwise the outcome of a fetch |
| `Directory.CacheAfter` | rnv_api.py:178-181 | after a finder, a populated cache is unchanged; an unpopulated one holds the fetched list, or stays unpopulated when the fetch failed |
| `Directory.OrNotFound` | rnv_api.py:66 | a found station is returned, and no match becomes the `StopIteration` error |
| `Directory.LoadMatchesCache` | rnv_api.py:178-181 | the list a finder searches is the list it leaves in the cache, and a failed fetch leaves the cache as it was |
| `Directory.PopulatedOnce` | rnv_api.py:63-64 | once the cache is populated, later replies change neither the cache nor what is searched |
| `Directory.StationDirectory.constructor` | rnv_api.py:44 | the cache starts unpopulated, with no fetch made |
| `Directory.StationDirectory.GetStations` | rnv_api.py:171-181 | always one fetch; on success the cache is overwritten with the fetched list and that list is returned; on failure the cache is unchanged |
| `Directory.StationDirectory.EnsureLoaded` | rnv_api.py:63-64 | one fetch exactly when the cache was unpopulated, none otherwise; returns the list to search |
| `Directory.StationDirectory.FindStationByShortName` | rnv_api.py:47-67 | the fetch error if population failed, else the short-name lookup on the loaded list or not found; the cache is updated as `CacheAfter` says |
| `Directory.StationDirectory.FindStationByLongName` | rnv_api.py:70-89 | the fetch error if population failed, else the exact long-name lookup on the loaded list or not found |
| `Directory.StationDirectory.FindStationsByLongName` | rnv_api.py:92-106 | the fetch error if population failed, else the substring search over the loaded list |
| `Directory.StationDirectory.GetHafasIdFromName` | rnv_api.py:109-127 | the fetch error if population failed, else the dispatched lookup's id or not found |
| `Directory.TwoLookups` | rnv_api.py:63-64 | in a fresh process two lookups make one fetch when the first succeeds, and both search the first reply's list |
| `Api.Get` | rnv_api.py:165 | `dict.get` gives the stored value when the key is present, else the default |
| `Api.EqualsInt` | rnv_api.py:165 | Python's `==` between a JSON value and an `int`: integers by value, `True` as 1 and `False` as 0, and `None`, strings, lists and dicts never equal |
| `Api.NoDataColorOnlyInt` | rnv_api.py:165 | only the integer 0x464D59 itself equals the no-data colour |
| `Api.DepartureRequest` | rnv_api.py:150-153 | the id, filter and source are sent unchanged; `time` is sent as given, or as `'null'` when absent |
| `Api.TimeNullCollides` | rnv_api.py:152 | no time and the text `null` produce the same request, and so the same departures |
| `Api.DepartureResult` | rnv_api.py:160-168 | a success returns the 200 reply's body; a bad status or failed connection is passed on; any other failure of a 200 reply is "Not Found" |
| `Api.GetDepartures` | rnv_api.py:130-168 | a success is the body of the reply to the request with the given id, filter, source and `time` (or `'null'`), and that reply had status 200 |
| `Api.DepartureSuccess` | rnv_api.py:160-166 | departures are returned exactly for a 200 reply whose `color` is present and not 0x464D59, and then unchanged |
| `Api.DepartureFailures` | rnv_api.py:160-168 | "Not Found" exactly for a 200 reply whose `color` is absent or 0x464D59; a bad status or a failed connection is reported as such |
| `Api.ColorEdgeCases` | rnv_api.py:165-168 | a payload without `color` is "Not Found"; a string-valued `color` counts as data |
| `Api.GetDeparturesOutcome` | rnv_api.py:130-168 | the whole of `get_departures` for any `ui_source`: the request it sends, and the result it returns for each kind of reply to it |
| `Api.GetNews` | rnv_api.py:216-225 | a 200 reply yields its decoded body, anything else fails |
| `Api.GetTicker` | rnv_api.py:262-271 | a 200 reply yields its decoded body, anything else fails |
| `Api.ParseCount` | rnv_api.py:247-249 | an accepted body is `{number:"` + a non-empty digit string + `"}`, and the result is that digit string |
| `Api.ParseCountRoundTrip` | rnv_api.py:293-295 | parsing the body built from any non-empty digit string gives that digit string back |
| `Api.ParseCountAccepts` | rnv_api.py:247-248 | the parser accepts exactly the bodies of the count pattern |
| `Api.CountExamples` | rnv_api.py:247-249 | `{number:"42"}` gives "42" and leading zeros are kept; an empty number, an unquoted number and a leading space are rejected |
| `Api.GetNewsCount` | rnv_api.py:238-249 | the digit string of a 200 reply whose text is a count body; a bad status fails first; a 200 reply with any other text fails with `NoCountMatch` |
| `Api.GetTickerCount` | rnv_api.py:284-295 | the same rule against the ticker count endpoint, including `NoCountMatch` for a 200 reply that is not a count body |

## Left out

- HTTP transport (`requests.get`, URLs, headers, user agent) is not modelled. Each call is an input reply, and the departures service is a function of the request parameters.
- `json.loads` is not modelled. Bodies arrive decoded, the stations body as its `stations` list. A body that is not JSON, or has no `stations` key, is not a case of the model.
- `r.encoding = 'utf-8'`: bodies are modelled as already-decoded strings.
- JSON floating-point numbers are not modelled. Python would count a `color` of `4607321.0` as the no-data colour.
- `Text.Upper`: does not model Python's full Unicode upper-casing (such as `ß` to `SS`, which changes the length). Only ASCII letters are mapped.
- `Text.Casefold`: does not model Unicode case folding. Only ASCII letters are mapped.
- `Text.IsUpper`: ASCII letters are the only cased characters.
- `Api.IsDigit`: `\d` in a Python `str` pattern matches every Unicode decimal digit. The model accepts only `0`-`9`.
- The `transportFilter` parameter is kept as an `Option`. `requests` drops a `None` parameter from the query string, which is not modelled.
- `hafasID` is a string. The command line may pass an `int`, which is not modelled.
- Generator laziness in `find_station_by_long_name` and `find_stations_by_long_name` is not modelled. The matches are returned as a sequence.
- `rnv.py` is not part of this model. It is command-line parsing and JSON printing.
- There is no locking around the cache. The program is single-threaded.
