# sample-mcp, modelled in Dafny

This project models the deterministic core of sample-mcp, a set of MCP tool servers written in Python around PyGithub, `requests` and FastMCP. It covers five parts:

- **GitHub App credentials** (`github_client_factory.py`):
  - the four settings are resolved from arguments or the environment, and one error names every missing setting in a fixed order;
  - the App's installation on the organisation is chosen as the first login that matches case-insensitively;
  - the installation id is exchanged for a token;
  - the JWT claims are built.
- **`GitHubService`** (`github_service.py`):
  - a lazily filled, never-invalidated client cache;
  - capped listings;
  - issue creation, commenting and closing;
  - three ways of writing a file to a branch: update with the sha just read, create-or-update by probing, and the Git-data plumbing chain of blob, tree, commit and ref.
- **The HTTP tools of the file-listing server** (`server.py`):
  - the configuration checks and their order;
  - the group name → id map;
  - the pagination arithmetic;
  - the HTTP-status message tables;
  - team-name extraction;
  - the sorted directory listing.
- **The containerised listing** (`server_docker.py`): Windows drive-C paths are rewritten to the "/host/C" mount, and inaccessible entries are kept as "unknown" records.
- **The mock weather forecast** (`weather_server.py`): the clamp on `days`, and the days generated from fixed tables.

Foreign services are represented as data or state:
- The remote GitHub repository is a `Remote.Repository` object. It holds:
  - a content-addressed Git store whose object shas come from a fixed, collision-free hash that is a parameter;
  - branch refs;
  - issues;
  - a log of every request that changed it.
- The integration endpoint is its list of installations plus a function from installation id to access token.
- The environment is a map.
- The directory a listing sees is a value: missing, not a directory, unreadable, or its entries.
- An HTTP exchange is either the exception `requests` raised or the response: its status, its `Date` header and its JSON body.

Each tool returns the request it sent, so "no request is made" can be stated.

Modules:
- `Wrappers` holds `Option` and `Result`.
- `Text` models the Python string operations used: ASCII `lower`/`upper`, `strip`, `str(int)` and string ordering.
- `AppConfig` and `ClientFactory` model `github_client_factory.py`.
- `Remote` and `Service` model `github_service.py`.
- `ServerTools`, `DirEntries`, `NameOrder` and `ServerListing` model `server.py`.
- `DockerListing` models `server_docker.py`.
- `Weather` models `weather_server.py`.

Three behaviours of the code that the model keeps as they are:
- The final `ref.edit(sha=...)` is a single unconditional request, with no fast-forward check, conflict error or retry in the service.
- Failures are plain `ValueError`/`Exception` messages, modelled as error strings.
- The organisation comes from `GITHUB_ORG_NAME`, although the docstring of `AppConfiguration` names `GITHUB_ORG`.

## Model

| member | source | states |
|---|---|---|
| AppConfig.Construct | github_client_factory.py:18-60 | Fails exactly when some resolved field is absent or empty, with the message naming the missing fields in reporting order. On success each field equals its argument when that is non-empty, else its environment value, and all four are non-empty. |
| AppConfig.FromEnv | github_client_factory.py:62-70 | Behaves as construction with every argument absent: it fails on the same condition with the same message, and on success each field is the environment value. |
| AppConfig.EmptyArgumentFallsBack | github_client_factory.py:40-43 | An empty-string argument resolves exactly as an absent one: to the environment value. |
| AppConfig.MissingNamesAbsentFields | github_client_factory.py:46-54 | A name is in the missing list if and only if some field with that name is absent or empty. |
| AppConfig.MissingKeepsOrder | github_client_factory.py:46-54 | The missing list is a subsequence of the field names, so it keeps their order. |
| AppConfig.MissingEmptyIffAllPresent | github_client_factory.py:56-60 | The missing list is empty if and only if every field is present and non-empty. |
| AppConfig.MissingAppend | github_client_factory.py:46-54 | Checking one more field appends its name exactly when it is missing. This is the step the appending `if` chain takes. |
| AppConfig.ResolvedFieldsInOrder | github_client_factory.py:46-54 | The fields are checked in the order GITHUB_APP_ID, GITHUB_APP_NAME, GITHUB_APP_PRIVATE_KEY, GITHUB_ORG_NAME. |
| AppConfig.MissingReportsField | github_client_factory.py:46-54 | When field names are distinct, a field is reported if and only if it is missing. |
| AppConfig.ConstructReportsEveryMissingField | github_client_factory.py:46-58 | The error names every missing credential and no present one, each in the fixed order. |
| ClientFactory.FirstMatch | github_client_factory.py:131-135 | The index found matches case-insensitively, and no earlier installation matches. `None` means no installation matches. |
| ClientFactory.FindInstallation | github_client_factory.py:131-135 | The search loop with `break` returns exactly the first case-insensitive match, or nothing when none matches. |
| ClientFactory.MatchIgnoresCase | github_client_factory.py:133 | Organisation "Acme" selects the installation whose login is "acme". |
| ClientFactory.FirstMatchIgnoresLaterMatches | github_client_factory.py:132-135 | Installations listed after the first match never change the selection. |
| ClientFactory.GetInstallationTokenSync | github_client_factory.py:118-145 | With no match it fails with "No installation found for organization: " + org and exchanges nothing. Otherwise it returns the token for exactly the matched installation's id, after exactly one exchange. |
| ClientFactory.GetInstallationToken | github_client_factory.py:109-116 | The asynchronous entry point returns the same result and the same exchanges as the synchronous one. |
| ClientFactory.GetAppAuthenticatedClientSync | github_client_factory.py:97-107 | The client carries the token of the first matching installation; without a match it fails with the installation error. |
| ClientFactory.JwtPayload | github_client_factory.py:159-174 | `iat` is the clock reading, `exp - iat` is the requested lifetime, and `iss` is the App id. |
| ClientFactory.DefaultJwtExpiresAfterTenMinutes | github_client_factory.py:159-174 | With the default lifetime, the token is expired at time t exactly when t ≥ issue time + 600, and it is not expired when issued. |
| Remote.OverlayStored | github_service.py:368-375 | Laying elements that name stored objects over a tree whose entries are stored keeps every entry stored. |
| Remote.PutKeeps | github_service.py:365-382 | Adding an object under its hash keeps every stored object and every ref. Every ref still names a commit and every tree entry still names a stored object. |
| Remote.CommitFileEffect | github_service.py:259-265 | A one-file commit keeps the store valid and the branch set unchanged. The branch's files are the old ones with that path set to the new blob, the new commit's only parent is the old head, and other branches are untouched. |
| Remote.Repository.constructor | github_service.py:252 | A repository starts from a valid store and issues, with an empty request log. |
| Remote.Repository.GetContents | github_service.py:256 | Succeeds exactly when the file exists on the branch, returning its path and current sha; otherwise fails with 404. |
| Remote.Repository.UpdateFileRequest | github_service.py:259-265 | Logs the request. It succeeds exactly when the file exists with the given sha, and then commits the content on the branch. A wrong sha fails with 409 and a missing file with 404, leaving the store unchanged. |
| Remote.Repository.CreateFileRequest | github_service.py:319-324 | Logs the request. It succeeds exactly when the branch exists and the file does not. An existing file fails with 422 and a missing branch with 404. |
| Remote.Repository.GetGitRef | github_service.py:359 | Returns the commit the branch points at, or 404. |
| Remote.Repository.GetGitCommit | github_service.py:362 | Returns the stored commit with that sha, or 404. |
| Remote.Repository.CreateGitBlob | github_service.py:365 | Logs the request, stores the blob under its hash and returns that hash. |
| Remote.Repository.CreateGitTree | github_service.py:375 | Succeeds exactly when the base tree exists and every element names a stored object. It then stores the base tree with the elements laid over it and returns its hash; otherwise 422. |
| Remote.Repository.CreateGitCommit | github_service.py:378-382 | Succeeds exactly when the tree exists and every parent is a commit. It then stores the commit and returns its hash; otherwise 422. |
| Remote.Repository.EditGitRef | github_service.py:385 | Moves an existing branch to a commit, unconditionally; otherwise 422. |
| Remote.Repository.CreateIssueRequest | github_service.py:103-105 | Logs the request and adds a new, open issue without comments under a fresh number, and advances the next issue number by one. |
| Remote.Repository.GetIssue | github_service.py:139 | Returns the issue, or 404 when there is none. |
| Remote.Repository.CreateCommentRequest | github_service.py:140 | Logs the request and appends the comment to the issue's comments. |
| Remote.Repository.CloseIssueRequest | github_service.py:159 | Logs the request and marks the issue closed. |
| Service.Capped | github_service.py:63-65 | The result is a prefix of the listing. A truthy cap gives min(cap, length) items; `None` or 0 gives the whole listing. |
| Service.CappedIdempotent | github_service.py:63-65 | Capping twice is capping once, and a cap at least the listing's length changes nothing. |
| Service.OverlayOne | github_service.py:368-375 | A single element laid over a tree replaces or adds exactly that path. |
| Service.CommitThroughPlumbing | github_service.py:362-385 | It sends, in order: blob; tree (the single `100644` blob entry over the head's tree); commit of that tree with parents exactly `[head]`; ref edit. The store ends exactly as after a contents-API write, and the branch points at the new commit. |
| Service.GitHubService.constructor | github_service.py:13-21 | A new service has no cached client and has not asked the factory. |
| Service.GitHubService.GetClient | github_service.py:23-32 | The factory is asked only when nothing is cached. A cached client is returned unchanged, and the factory-call count rises by at most one per call. |
| Service.GitHubService.ListOrganizationRepos | github_service.py:48-65 | Obtains the client, then returns the capped listing. |
| Service.GitHubService.GetOpenIssues | github_service.py:67-84 | Obtains the client, then returns the capped listing. |
| Service.GitHubService.GetPullRequests | github_service.py:107-126 | Obtains the client, then returns the capped listing. |
| Service.GitHubService.SearchIssues | github_service.py:190-206 | Obtains the client, then returns the capped listing. |
| Service.GitHubService.CreateIssue | github_service.py:86-105 | Labels are sent only when the list is non-empty. Exactly one create request is logged, and a new open issue is added. |
| Service.GitHubService.AddIssueComment | github_service.py:128-140 | Succeeds exactly when the issue exists: the comment is appended and one request is logged. Otherwise nothing changes. |
| Service.GitHubService.CloseIssue | github_service.py:142-159 | A non-empty comment is logged and appended strictly before the state change. No or empty comment adds none. The issue always ends closed. |
| Service.GitHubService.UpdateFileInBranch | github_service.py:229-275 | Writes with the sha read from that branch. A missing file fails with "Failed to update file '…' in branch '…': …" and sends no write. Otherwise the result echoes the caller's message and branch. |
| Service.GitHubService.CreateOrUpdateFileInBranch | github_service.py:277-333 | An existing file is updated with its current sha and reported "updated". A missing file is created without a sha and reported "created". Either way the store ends as a one-file commit. |
| Service.GitHubService.UpdateFileUsingGitApi | github_service.py:335-394 | A missing branch fails with 404 and changes nothing. Otherwise it runs the four plumbing requests in order and moves the branch to a commit of the head's tree plus the file, with parents `[head]`. It reports the commit, tree and blob shas and the commit's message. |
| Text.StripEmptyIffBlank | server.py:280 | `s.strip()` is empty if and only if `s` is empty or all whitespace. |
| Text.NatToStringRoundTrip | weather_server.py:60 | Reading back the decimal digits that `str(n)` writes gives `n`. |
| Text.LexLeTotal | server.py:80 | Python's string order is total. |
| Text.LexLeTransitive | server.py:80 | Python's string order is transitive. |
| Text.LexLeAntisymmetric | server.py:80 | Python's string order is antisymmetric. |
| ServerTools.StatusAsWritten | server.py:220 | As written, the reported status is a code exactly when the response is `ok`, which an HTTP error's response never is. |
| ServerTools.HttpErrorStatus | server.py:220 | The intended status is the response's own code. It departs from the handlers' status exactly on the statuses `raise_for_status` raises for. |
| ServerTools.StatusMessage | server.py:223-232 | 401, 403, 404 and 429 each give their fixed message; any other status gives "API request failed with status " followed by the status. |
| ServerTools.GroupStatusMessage | server.py:344-353 | The same table for user counts, where 403 speaks of the group and 404 names the group id. |
| ServerTools.AsWrittenStatusAlwaysUnknown | server.py:218-234 | As written, every status that `raise_for_status` raises for is reported as "Unknown" with the generic message, in both message tables and for any group id. |
| ServerTools.AsWrittenNotFoundIsGeneric | server.py:220-228 | As written, a 404 never yields "API endpoint not found. Check your API URL.". |
| ServerTools.CorrectedStatusMessages | server.py:220-232 | With the response's own code, 401, 403, 404 (both tables) and 429 give their dedicated messages, and other codes are named in the message. |
| ServerTools.BuildGroups | server.py:173-176 | The loop yields the name → id map of the dict items that have both keys. It raises `TypeError` exactly when such an item's name is unhashable, with the message for the first such name. |
| ServerTools.FirstUnhashable | server.py:173-176 | The name found is one that cannot be a dict key. |
| ServerTools.GroupsDictKeys | server.py:173-176 | A key is in the map if and only if some group record carries it as its name. |
| ServerTools.GroupsDictLastWins | server.py:173-176 | The id stored under a name is that of the last group with that name. |
| ServerTools.GroupsDictSize | server.py:192 | `groups_count` never exceeds the length of the groups array. |
| ServerTools.DuplicateNamesCountOnce | server.py:176 | Two groups with the same name give a one-entry map holding the later id. |
| ServerTools.Pagination | server.py:185-187 | `total_pages` is ≥ 1, and is the ceiling of total/page size when both are positive, else 1. `has_next` holds iff page < total_pages, and `has_previous` iff page > 1. |
| ServerTools.CeilingBounds | server.py:185 | Floor division of (total + size − 1) by size is the ceiling of total/size. |
| ServerTools.LastPageHasNoNext | server.py:185-186 | On the last page `has_next` is false. |
| ServerTools.GroupsParams | server.py:149-152 | The query carries `page` and `page_size`, then `("search", term)` exactly when the term is non-empty. |
| ServerTools.GetGroups | server.py:104-243 | Checks API_ENDPOINT, then BEARER_TOKEN; either missing fails with its message and sends no request. It then maps exceptions and bad JSON to their messages, and an unhashable group name to "Unexpected error: unhashable type: …" for the first such name. As written, every HTTP error status fails with "API request failed with status Unknown" and status "Unknown". On success it returns the groups map, its size, the original array, pagination with the documented defaults, the search term and the `Date` header. |
| ServerTools.GetUsercount | server.py:247-381 | Checks configuration, then rejects an empty or whitespace `group_id`; none of these sends a request. On success the count is `page.total`, or 0 when absent. Every error after the request echoes the group id: an exception gives its handler's message, and a body that is not JSON gives the invalid-JSON message. As written, every HTTP error status fails with "API request failed with status Unknown" and status "Unknown". |
| ServerTools.TeamNamesOf | server.py:445-449 | At most one name per item. |
| ServerTools.TeamNamesAppend | server.py:445-449 | The names of a concatenation are the names of each part in order, so response order is kept. |
| ServerTools.TeamNamesMembers | server.py:445-449 | A name is listed if and only if it is the "name" of some dict item that has one. |
| ServerTools.TeamNames | server.py:445-449 | The loop yields the names of the team records; a response that is not a list yields none. |
| ServerTools.GetRepoTeams | server.py:385-496 | Checks GITHUB_API_ENDPOINT, then GITHUB_BEARER_TOKEN, with no request on failure. The URL uses GITHUB_ORG_NAME, defaulting to "Hogarth-Worldwide" only when unset. Errors are mapped as for groups, including the invalid-JSON message: as written, every HTTP error status reports "Unknown". `team_count` is the number of names. |
| NameOrder.WithKey | server.py:80 | Picks out only elements with the given key, from the input. |
| NameOrder.InsertAt | server.py:80 | Scanning past every element whose key is at most the new one's finds where `Insert` puts it. |
| NameOrder.InsertMultiset | server.py:80 | Inserting adds exactly one element. |
| NameOrder.InsertSorted | server.py:80 | Inserting into a sorted sequence keeps it sorted. |
| NameOrder.InsertWithKey | server.py:80 | Inserting puts the element after every element with the same key and moves no other element of that key. |
| NameOrder.SortSpecSorted | server.py:80 | The sorted listing is ordered by key. |
| NameOrder.SortSpecPermutation | server.py:80 | The sorted listing is a permutation of the input. |
| NameOrder.SortSpecStable | server.py:80 | Elements with equal keys keep their input order, as Python's stable sort does. |
| NameOrder.SortByKey | server.py:80 | The insertion sort yields the sorted listing: ordered, a permutation, and stable. |
| DirEntries.Accessible | server.py:66-72 | The record keeps the name and path. Its type is "directory" for directories and "file" otherwise, and a size is present exactly for files. |
| DirEntries.ServerRecord | server.py:66-72 | An entry whose `stat` succeeds gets its details. One whose `stat` fails but whose `is_dir`/`is_file`/`exists` checks answer False instead of raising (a dangling symbolic link) is a "file" with no size and no error. |
| ServerListing.Kept | server.py:62-77 | Keeps at most one record per entry. |
| ServerListing.KeptMembers | server.py:64-77 | A record is listed if and only if it is the record of an entry whose checks do not raise. Such an entry either has a working `stat` or has an error the checks swallow; entries whose checks raise are skipped. |
| ServerListing.KeptAllAccessible | server.py:64-77 | When no entry's checks raise, every entry is listed. |
| ServerListing.FailedStatListing | server.py:64-77 | An entry whose `stat` fails is listed as a sizeless "file" when the checks swallow the error, and skipped when they raise it. |
| ServerListing.ListFiles | server.py:31-100 | Error cases: a missing path or a non-directory fails with its message and the resolved path, while a permission error or other error fails with the argument as given. For a directory it returns the records of the entries whose checks do not raise, dangling links included, sorted by lower-cased name and a permutation of those records, with `total_items` equal to their number. |
| DockerListing.TranslatePath | server_docker.py:29-47 | A "/host/" path is unchanged, and so is any path not on drive C. A drive-C path maps to a path starting "/host/C/". |
| DockerListing.DriveCRest | server_docker.py:36-44 | A drive-C path keeps everything after the drive and its separator, once backslashes become slashes. |
| DockerListing.DriveCHasNoBackslash | server_docker.py:38 | A translated drive-C path contains no backslash. |
| DockerListing.SeparatorSpellingsAgree | server_docker.py:36-44 | "C:\rest", "c:/rest" and "C:rest" all map to "/host/C/rest". |
| DockerListing.Record | server_docker.py:66-85 | The type is "unknown" exactly when `stat` failed, and the record carries `stat`'s error. A size is present only for accessible files; an accessible entry gets its details. |
| DockerListing.Records | server_docker.py:65-85 | Every entry gets a record, in order; none is skipped. |
| DockerListing.ListFiles | server_docker.py:18-103 | Errors report the translated path. A directory lists every entry's record, sorted by lower-cased name and a permutation of the records, with `total_items` equal to the number of entries. |
| Weather.Clamp | weather_server.py:47-48 | `days` outside 1..5 becomes 5; values inside are kept. |
| Weather.DayOf | weather_server.py:59-79 | Day i is dated "2025-10-" followed by 28+i, with high 22+i and low 17+i, five apart. Condition, description and rain chance are the `i mod 5` entries of the tables. |
| Weather.Country | weather_server.py:85 | An empty country code gives "Unknown". Otherwise each character is the upper-cased input character, so the result has the same length and no lower-case letter. |
| Weather.GetWeatherForecast | weather_server.py:31-95 | `forecast_days` is the clamped `days`, and the forecast has that many days, day i being `DayOf(i)`. The country, timestamp and source are as fixed, and `success` is true. |
| Weather.FirstDay | weather_server.py:56-75 | Day 0 is "2025-10-28", high 22, low 17, "Sunny", 10% chance, wind from 180. |
| Weather.NoCalendarRollover | weather_server.py:60 | The fifth day is dated "2025-10-32": there is no calendar rollover. |
| Weather.TablesRepeat | weather_server.py:63-75 | Condition, description and chance repeat every five days. |

## Left out

- Network access, PyGithub, `requests` and FastMCP are not modelled. Their answers are parameters: installation lists, the token function, HTTP exchanges, and directory contents. The remote repository is the `Remote.Repository` state.
- Repository lookup is not modelled: `get_repository` / `client.get_repo` and its failure are left out, and the repository is passed in. The read-only projections `get_repository_stats` and `get_user_info` are left out too.
- The RS256 signing of the JWT is left out; only its claims are modelled. The clock is a parameter.
- The async entry points are modelled only as delegation to the synchronous path; there is no concurrency. Concurrent writers, the server's fast-forward checks and retries are not modelled.
- Listing pagination on the server side is not modelled: `list(x[:max])` sees a finished listing. Negative caps are not modelled.
- Git trees are flat maps from path to entry, so nested subtrees are not modelled. Object shas come from an abstract hash that is collision-free and never empty.
- Service.GitHubService.CreateOrUpdateFileInBranch: the `if file_sha` branch for an empty sha cannot occur, because shas are never empty, and the probe's failure is always 404. Transient read errors, which the source also routes to "create", are not modelled.
- Python's Unicode case mapping and Unicode whitespace are not modelled; `lower`, `upper` and `strip` are ASCII.
- JSON floats are left out, and with them wind speed, precipitation amount and `st_mtime`; the `modified` field of listings is omitted.
- Response fields of an unexpected JSON type are not modelled: for example a `groups` value that is not a list, or a `page` that is not an object. In Python these raise inside the handlers' `try` and end in "Unexpected error: …".
- Python's key equality across types is not modelled: `True == 1` as dict keys.
- The key order of the `groups` dict is not modelled: a map has none, where Python keeps insertion order and a duplicate name keeps its first position.
- A body that is not JSON is reported as "Invalid JSON response from API". Which handler newer versions of `requests` route that error to is not modelled.
- ServerListing.ListFiles: which `stat` errors pathlib's `is_*`/`exists` swallow depends on the Python version, so it is an input per entry. A `stat` that succeeds for one check and fails for the next is not modelled. An error raised part-way through `iterdir` is modelled as the whole folder being unreadable. `Path.resolve` is an input, and the path normalisation `str(Path(...))` in the containerised server is not applied.
- Weather: a non-integer `days`, and the "Failed to get forecast" handler that only such inputs reach, are not modelled. The location string, which is only logged, is left out.
- Logging, `.env` loading, tool registration and `mcp.run` are not modelled, nor are the test scripts.
- The unreachable second `return token` in `_encode_jwt_token` is left out.

## Findings

| source | as written | input that shows it | evidently intended | confidence | as-written member | corrected member |
|---|---|---|---|---|---|---|
| server.py:220 (also 341, 473) | `status_code = e.response.status_code if e.response else "Unknown"`. A `requests.Response` is truthy only when its status is below 400, and `raise_for_status` raises only for 400–599, so the condition is always false and every HTTP error is reported with status "Unknown" and the generic message. | A 404 from the groups API gives "API request failed with status Unknown" instead of "API endpoint not found. Check your API URL." | Test `e.response is not None`, so that the code is reported and the 401/403/404/429 messages are reachable. The three tool models keep the code as written, and the corrected status and its messages are proved separately. | high; not executed | ServerTools.AsWrittenNotFoundIsGeneric | ServerTools.CorrectedStatusMessages |
