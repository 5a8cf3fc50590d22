# td-mcp-server core, modelled in Dafny

td-mcp-server is a Model Context Protocol server for Treasure Data. Most of it is glue:
HTTP calls, tool registration and CLI printing. This project models the deterministic logic
beneath that glue, and proves what that logic promises:

- **`Api`** (`td_mcp_server/api.py`): the records `Database`, `Table`, `Project`,
  `Metadata` and `Workflow`, plus the `TreasureDataClient` class.
  - The constructor sets the fields: API key, base URLs, the derived workflow endpoint,
    and the `TD1` authorisation header.
  - The offset/limit/`all_results` paging is shared by the three list methods.
  - `get_database` is a first-match lookup.
  - The client is abstract: each list method takes the list the server returned as a
    parameter, and pages it as the code does, negative stop index included.
- **`SafePaths`** and **`PosixPath`** (`td_mcp_server/mcp_impl.py`): the project-id,
  file-path and archive-path validators, and the per-member extraction guard. They rest
  on pure models of POSIX `os.path.normpath`, `os.path.join` and `pathlib` `.suffix`.
- **`ProjectArchive`**: `td_list_project_files` and `td_read_project_file` over an archive
  modelled as a sequence of member records.
  - Listing skips unsafe members, classifies the rest, and sorts directories first and
    then by name.
  - Reading runs its checks in order and fails at the first one that fails.
- **`McpTools`**: the system-project filter of `td_list_projects`, the download location of
  `td_download_project_archive`, and the filters and result shapes of `td_list_workflows`.
- **`SearchTools`** (`td_mcp_server/search_tools.py`):
  - `td_find_project`: a direct name match, with a fallback over workflows that builds a
    per-project map of workflow counts.
  - `td_find_workflow`.
  - `td_get_project_by_name`.
- **`UrlTools`** (`td_mcp_server/url_tools.py`):
  - `td_analyze_url`: dispatches on workflow, then project, then job URL patterns.
  - `td_get_workflow`: validates the id, finds the first workflow with that id, and shapes
    the report.
- **`Text`**, **`Seqs`**, **`Wrappers`**: support modules.
  - `Text`: ASCII lower-casing, Python whitespace, substring search and `str.replace`.
  - `Seqs`: an order-preserving filter, which is what the list comprehensions and append
    loops compute, with its algebra.
  - `Wrappers`: `Option`, `Result`, and `Lookup`, a three-way outcome of `get_project`
    (fetched, missing, or raised).

Every tool reply is modelled as a `Result`. Its error side is the exact message string the
source puts in `{"error": ...}`.

Where the code keeps state in a loop, the model does too. Those places are
`TreasureDataClient`, `GetDatabase`, `ListProjectFiles`, `ListWorkflows`, `FindProject`,
`FindWorkflow` and `GetWorkflow`. Each method is proved equal to a specification function,
and the properties are proved about that function.

## Model

| member | source | states |
|---|---|---|
| Api.Page | td_mcp_server/api.py:163-174 | The corrected paging, four guarantees. With `all_results` the whole list comes back unchanged. Otherwise, for non-negative offset and limit, the page is the slice from `offset` to `min(offset+limit, len)`. A non-positive limit or an offset past the end gives an empty page. The page is always a contiguous slice, no longer than the list or the limit. |
| Api.PageAgreesForNonNegativeLimit | td_mcp_server/api.py:169-174 | For every non-negative limit, the corrected paging equals the code as written. |
| Api.NegativeLimitCounterexample | td_mcp_server/api.py:169-174 | As written, limit -1 at offset 0 over three items returns two items, not an empty page. |
| Api.PageAsWrittenAgainstPage | td_mcp_server/api.py:163-174 | The code's paging equals the corrected paging unless `offset + limit` is negative. When it is negative and `all_results` is off, the code slices up to that negative stop, which Python counts from the end. |
| Api.ApiDotRewrittenInPlace | td_mcp_server/api.py:105-109 | Take an endpoint made of an `api.` between two texts that hold no `api.`. The rewrite replaces that `api.` with `api-workflow.` where it stands, and leaves both texts unchanged. |
| Api.TokyoWorkflowEndpoint | td_mcp_server/api.py:105-109 | `api.treasuredata.co.jp` derives the workflow endpoint `api-workflow.treasuredata.co.jp`. |
| Api.WorkflowEndpointHasNoApiDot | td_mcp_server/api.py:107 | After the derivation, no `api.` occurrence is left anywhere in the workflow endpoint. |
| Api.TreasureDataClient.constructor | td_mcp_server/api.py:76-116 | Sets every field. Base URL is `https://<endpoint>/<version>`. The workflow endpoint is the explicit one if given, otherwise the derived one. Workflow base URL is `https://<workflow endpoint>/api`. Headers are exactly the `TD1 <key>` authorisation and the JSON content type. |
| Api.TreasureDataClient.Create | td_mcp_server/api.py:94-98 | An empty or absent argument key falls back to the environment key. Construction fails with the ValueError message exactly when the resolved key is absent or empty. Otherwise the new client holds the resolved key and every derived field. |
| Api.TreasureDataClient.GetDatabases | td_mcp_server/api.py:146-174 | Pages the fetched databases as the code does. With `all_results` the whole list comes back, whatever the limit and offset. Otherwise the result is the corrected page whenever `offset + limit` is not negative. When that sum is negative, it is the Python slice from `offset` to the negative stop `offset + limit`, which counts from the end. |
| Api.TreasureDataClient.GetTables | td_mcp_server/api.py:195-226 | Pages the fetched tables as the code does. With `all_results` the whole list comes back, whatever the limit and offset. Otherwise the result is the corrected page whenever `offset + limit` is not negative. When that sum is negative, it is the Python slice from `offset` to the negative stop `offset + limit`, which counts from the end. |
| Api.TreasureDataClient.GetProjects | td_mcp_server/api.py:228-267 | Pages the fetched projects as the code does. With `all_results` the whole list comes back, whatever the limit and offset. Otherwise the result is the corrected page whenever `offset + limit` is not negative. When that sum is negative, it is the Python slice from `offset` to the negative stop `offset + limit`, which counts from the end. |
| Api.TreasureDataClient.GetDatabase | td_mcp_server/api.py:176-193 | Returns None exactly when no name matches. Otherwise it returns the first database, in list order, whose name equals the argument. |
| SafePaths.ValidProjectIdExactly | td_mcp_server/mcp_impl.py:30-40 | An id is accepted exactly when it is a non-empty word over `[A-Za-z0-9_-]`, optionally followed by one newline. The `..`, `/` and `\` checks then never fire. |
| SafePaths.Sanitize | td_mcp_server/mcp_impl.py:365 | The output has the same length, and every output character is in the allowed class. Allowed characters are kept in place, and every other character becomes `_`. |
| SafePaths.SanitizeValidId | td_mcp_server/mcp_impl.py:365 | For an accepted id, sanitising is the identity, except that a trailing newline becomes `_`. |
| SafePaths.DownloadPathShape | td_mcp_server/mcp_impl.py:365-366 | The output path is `<temp dir>/project_<id>.tar.gz`. The file name has no separator, so the archive lands directly in the temp dir. |
| SafePaths.ValidFilePathIsRelative | td_mcp_server/mcp_impl.py:43-52 | An accepted file path is relative. Its normal form has no `..` and no empty or `.` component. |
| SafePaths.AcceptedArchivePathIsAbsolute | td_mcp_server/mcp_impl.py:55-76 | When the temp directory is absolute, every accepted archive path is absolute. |
| SafePaths.SafeMemberWithoutJoinCheck | td_mcp_server/mcp_impl.py:79-101 | The guard reduces to three conditions: the normalised name does not start with `/` or `\`, it contains no `..`, and the size is at most 100 MiB. The check that the join stays under the root never decides. |
| SafePaths.SafeMemberStaysBelowRoot | td_mcp_server/mcp_impl.py:79-101 | A member that passes is relative and within the size limit. Its normal form has no `..` component. |
| SafePaths.AbsoluteMemberRefused | td_mcp_server/mcp_impl.py:85-86 | A member named with a leading `/` is refused. |
| SafePaths.ParentTraversalRefused | td_mcp_server/mcp_impl.py:89-90 | A member whose name starts with `../` is refused. |
| SafePaths.DoubleDotNameRefused | td_mcp_server/mcp_impl.py:89-90 | A plain name such as `a..b.sql` is refused too, because `..` occurs in it. |
| SafePaths.OversizedMemberRefused | td_mcp_server/mcp_impl.py:98-99 | A member over 100 MiB is refused. |
| PosixPath.JoinSplit | td_mcp_server/mcp_impl.py:82 | Joining the `/`-components of a path gives the path back. This is the round trip that `normpath` rests on. |
| PosixPath.NormpathRooted | td_mcp_server/mcp_impl.py:82 | The normal form is absolute exactly when the input is. |
| PosixPath.RelativeNormpath | td_mcp_server/mcp_impl.py:82-90 | When the normal form is relative and contains no `..`, the input has no leading slash. The normal form is then `.` or its components joined by `/`, and none of those components is empty, `.` or `..`. |
| PosixPath.ParentPrefixSurvives | td_mcp_server/mcp_impl.py:82 | A relative path whose first component is `..` still starts with `..` once normalised. |
| PosixPath.JoinPathUnder | td_mcp_server/mcp_impl.py:93 | `os.path.join(root, rel)` with a relative second part starts with the root. |
| PosixPath.SuffixShape | td_mcp_server/mcp_impl.py:428-429 | The suffix is empty, or it is one `.` followed by at least one character, with no further dot and no separator. |
| PosixPath.SuffixOfFileName | td_mcp_server/mcp_impl.py:428-429 | A file `<dir><stem>.<ext>` has suffix `.<ext>`. Here the directory part is empty or ends in `/`, the stem is non-empty without a separator, and the extension is non-empty without a dot or separator. |
| ProjectArchive.SortEntries | td_mcp_server/mcp_impl.py:447 | The sorted listing is a permutation of its input, ordered with directories first and by name within each kind. |
| ProjectArchive.SortStable | td_mcp_server/mcp_impl.py:447 | The sort is stable: entries with the same key keep their relative order. |
| ProjectArchive.ListProjectFiles | td_mcp_server/mcp_impl.py:396-460 | The errors come in order: invalid archive path, archive not found, then a failure to list. On success the files are the sorted entries of the members that pass the guard, and the count is their number. |
| ProjectArchive.CollectEntries | td_mcp_server/mcp_impl.py:415-444 | The member loop skips every member the guard refuses and appends the entry of every other member in archive order: the result is the filter of the members by the guard, mapped to their entries. |
| ProjectArchive.ListingIsPermutationOfSafeMembers | td_mcp_server/mcp_impl.py:416-419 | The listing is a permutation of the entries of the members that pass the guard. Every listed entry passes it, and every passing member is listed. |
| ProjectArchive.ListingOrder | td_mcp_server/mcp_impl.py:447 | Every directory precedes every file. Within a kind, names ascend. |
| ProjectArchive.TraversalNeverListed | td_mcp_server/mcp_impl.py:416-419 | No listed entry is named `../<anything>`. |
| ProjectArchive.EntryClassification | td_mcp_server/mcp_impl.py:421-442 | Directories get neither extension nor type. Files get the lower-cased suffix as extension and a type derived from it: `.dig`, `.sql`, `.py`, `.yml`/`.yaml`, or other. |
| ProjectArchive.LastMember | td_mcp_server/mcp_impl.py:489 | Member lookup returns None exactly when no member has that name. Otherwise it returns the last member with that name. |
| ProjectArchive.Latin1 | td_mcp_server/mcp_impl.py:513-521 | Latin-1 decoding is total and maps each byte to the character with the same code. |
| ProjectArchive.ReadProjectFile | td_mcp_server/mcp_impl.py:464-539 | Each error holds exactly when all earlier checks pass and its own check fails, in this order: archive path, file path, existence, corrupt archive, then member-level checks. The "not readable as text" error never occurs. Success carries the member's size and the lower-cased suffix of the file path. |
| ProjectArchive.ReadSucceedsExactlyOnSafeFiles | td_mcp_server/mcp_impl.py:486-531 | Given valid paths and a readable archive, reading succeeds exactly when four things hold. The last member with that name passes the guard, is not a directory, yields data, and is at most 10 MiB. The content is its bytes decoded. |
| McpTools.ListProjects | td_mcp_server/mcp_impl.py:265-307 | When `get_projects` raises, the reply is "Failed to retrieve projects: " followed by the exception message. Otherwise the page is `get_projects`' page as the code slices it. With `include_system` the reply is that page. Without it, the reply is the order-preserving filter of the page by "not a system project". It holds exactly the page's non-system projects. |
| McpTools.ListProjectsKeepsOrder | td_mcp_server/mcp_impl.py:282-290 | For any page made of two runs, the reply is the user projects of the first run followed by those of the second. |
| McpTools.ListProjectsFromCorrectedPage | td_mcp_server/mcp_impl.py:282-290 | Whenever `offset + limit` is not negative, the reply is built from the corrected page. |
| McpTools.ProjectRefs | td_mcp_server/mcp_impl.py:294-301 | The short reply lists the id and name of each project, in order. |
| McpTools.DownloadProjectArchive | td_mcp_server/mcp_impl.py:342-392 | Errors in order: invalid id, project not found, lookup failure, then a download that returned false or raised. Success holds exactly when the id is valid, the project exists and the download returned true. It reports the id, the project name, the download path and the temp dir. |
| McpTools.DownloadLandsInTempDir | td_mcp_server/mcp_impl.py:365-371 | A successful download is saved as `<temp dir>/project_<id>.tar.gz`. A trailing newline in the id, which the validator lets through, becomes `_`. |
| McpTools.SelectedIsOneFilter | td_mcp_server/mcp_impl.py:564-594 | The three successive filters select exactly one conjunction, keeping fetched order. The conjunction: system unless included, status if set, search term if set. |
| McpTools.Summarize | td_mcp_server/mcp_impl.py:622-636 | The summary's last status is the first session's status, or `no_runs` if there are none. `scheduled` holds exactly when a schedule is present. |
| McpTools.Detail | td_mcp_server/mcp_impl.py:596-621 | The verbose form copies the workflow's id, name, project id and name, timezone and schedule. It keeps the first three sessions at most, in order, each with its time and its last attempt's status and success. |
| McpTools.ListWorkflows | td_mcp_server/mcp_impl.py:543-646 | When `get_workflows` raises, the reply is "Failed to retrieve workflows: " followed by the exception message. Otherwise the append loops compute the selection of the three filters. The reply lists the selected workflows in order, in verbose or summary form; the summary's `total_count` is their number. |
| McpTools.FilterByStatus | td_mcp_server/mcp_impl.py:575-582 | The status loop keeps, in order, exactly the workflows that have a latest session whose last attempt has the requested status. |
| McpTools.FilterBySearch | td_mcp_server/mcp_impl.py:585-593 | The search loop keeps, in order, exactly the workflows whose lowered name or lowered project name contains the lowered term. |
| SearchTools.FindProject | td_mcp_server/search_tools.py:31-147 | The method equals the reply's specification. That specification covers the blank term, the direct stage, the workflow fallback with its per-project map, and the not-found message. |
| SearchTools.MatchProjects | td_mcp_server/search_tools.py:58-69 | The direct stage keeps, in order, exactly the projects whose name matches the term. |
| SearchTools.MapProjects | td_mcp_server/search_tools.py:89-111 | The dictionary the fallback loop builds equals the tally of the matching workflows. |
| SearchTools.DirectStageMatches | td_mcp_server/search_tools.py:58-84 | If any project name matches, the reply is the direct matches, in order, not tagged as from workflows. Its count is their number. |
| SearchTools.FallbackStage | td_mcp_server/search_tools.py:86-138 | A reply tagged as from workflows comes only when no project name matched and some workflow matched. Its count is the number of distinct ids whose lookup did not return None, which is at most the number of distinct matching ids. |
| SearchTools.NotFoundMeansNoMatch | td_mcp_server/search_tools.py:140-144 | Not-found means no project name and no workflow matched. The message quotes the term. |
| SearchTools.TallyShape | td_mcp_server/search_tools.py:94-111 | The map has one entry per distinct matching project id. Its key order lists each id once, and has every id that has an entry. |
| SearchTools.TallyCounts | td_mcp_server/search_tools.py:94-111 | Each entry's workflow count is the number of matching workflows with that id. |
| SearchTools.TallyNames | td_mcp_server/search_tools.py:96-101 | Each entry carries the project name of the first workflow seen with that id. |
| SearchTools.TallyOrder | td_mcp_server/search_tools.py:94-111 | Keys are ordered by first appearance. |
| SearchTools.TallyCountsAll | td_mcp_server/search_tools.py:94-111 | The counts sum to the number of matching workflows. |
| SearchTools.DetailsCount | td_mcp_server/search_tools.py:113-131 | The detailed list has one item per id whose lookup did not return None, at most one per map entry. |
| SearchTools.FindWorkflow | td_mcp_server/search_tools.py:150-254 | The method equals the reply's specification. That specification covers the blank term, the filtered hits in order, the not-found message, and the failure message. |
| SearchTools.MatchWorkflows | td_mcp_server/search_tools.py:184-236 | The `continue` loop reports, in order, exactly the workflows that pass the name, project and status conditions. |
| SearchTools.PassesSearch | td_mcp_server/search_tools.py:184-236 | Each `continue` of the loop body rejects a workflow that fails the name, project or status condition. The body keeps a workflow exactly when all three hold. |
| SearchTools.FoundWorkflowsMatch | td_mcp_server/search_tools.py:184-251 | Every reported workflow comes from a matching workflow. Not-found holds exactly when no workflow matches. |
| SearchTools.NoWorkflowsMessageParts | td_mcp_server/search_tools.py:245-251 | The not-found message starts with the base sentence. With only a status it ends with the status clause. With only a project it ends with the project clause. With both it is the base sentence, then the project clause, then the status clause. With neither it is the base sentence alone. |
| SearchTools.GetProjectByName | td_mcp_server/search_tools.py:257-296 | A blank name is an error. Otherwise the exact search decides. Its first hit's full record, a missing-details message, or a failure message is returned; with no hit, the not-found message. |
| SearchTools.ProjectByNameFindsFirstExact | td_mcp_server/search_tools.py:275-288 | The reply is the full record of the first project whose name equals the argument, ignoring case. |
| UrlTools.ExtractId | td_mcp_server/url_tools.py:44-47 | The extracted id is a non-empty digit string. There is none exactly when the prefix is never followed by a digit. |
| UrlTools.ExtractIdIsLeftmostMaximal | td_mcp_server/url_tools.py:44-47 | The id follows the leftmost prefix occurrence that precedes a digit. It is the maximal digit run there. |
| UrlTools.ExtractedIdIsValid | td_mcp_server/url_tools.py:44-47 | An extracted id is never blank, and always passes the numeric check of `td_get_workflow`. |
| UrlTools.RowsOf | td_mcp_server/url_tools.py:133-144 | At most the first five sessions are kept, in order. |
| UrlTools.ReportOf | td_mcp_server/url_tools.py:114-149 | `scheduled` holds exactly when a schedule exists. The `schedule` key is present only for a non-empty schedule. `latest_sessions` is present only when sessions exist. |
| UrlTools.GetWorkflow | td_mcp_server/url_tools.py:83-156 | The method equals the reply's specification. That specification covers the empty id, the numeric check, the failure message, the first-match report, and not-found. |
| UrlTools.CollectSessions | td_mcp_server/url_tools.py:133-144 | The append loop builds the first five session rows. |
| UrlTools.GetWorkflowFindsFirst | td_mcp_server/url_tools.py:112-153 | For a valid id, the reply succeeds exactly when some workflow has that id. The report is then the first such workflow's. Otherwise the reply is the not-found message. |
| UrlTools.ConsoleUrlRoundTrip | td_mcp_server/url_tools.py:146-149 | Extracting the workflow id from the console URL built for a numeric id gives back that id. |
| UrlTools.AnalyzeUrlDispatch | td_mcp_server/url_tools.py:44-80 | Dispatch goes workflow, then project, then job, then unrecognised. A job URL needs no client call. |
| UrlTools.ConsoleUrlAnalysed | td_mcp_server/url_tools.py:44-47 | Analysing a console workflow URL performs the workflow lookup for that id. |
| Seqs.FilterConcat | td_mcp_server/mcp_impl.py:282-290 | An order-preserving filter distributes over concatenation. |
| Seqs.FilterCompose | td_mcp_server/mcp_impl.py:575-594 | Two filters in sequence equal one filter by the conjunction. |

## Left out

- HTTP transport is not modelled. This covers `_make_request`, `requests` and `raise_for_status`. Each client list method takes the server's list as a parameter. Each tool takes the outcome of its client call as a `Result` (a `Lookup` for `get_project`), and a raising call is an `Err` carrying the exception message.
- The 404 branch of `get_project` is not modelled, because it depends on `requests.Response` truthiness. The lookup is a `Lookup` parameter: fetched, missing or raised.
- `get_workflows` and its `count`/`all_results` arguments are not modelled. The tools receive the fetched workflow list as a parameter.
- Pydantic parsing, aliasing and `model_dump` are not modelled. Records are datatypes, and replies keep only the fields the tools compute.
- tarfile, gzip and the filesystem are parameters or left out:
  - `os.path.exists`, `tempfile.mkdtemp` and `gettempdir` become parameters;
  - the archive is a sequence of member records, or an "unreadable" outcome with a reason;
  - symlinks and other special members are one "other" kind.
- The archive download itself is left out: it is the outcome parameter of `DownloadProjectArchive`.
- `ProjectArchive.ListProjectFiles`: exceptions other than an unreadable archive are not distinguished.
- `ProjectArchive.ReadProjectFile` does not follow links. `tarfile.extractfile` resolves a symbolic or hard link to its target member and returns that member's content. The model instead answers "Failed to extract file" for every member that is neither a directory nor a regular file. Link resolution inside tarfile is not part of this model.
- `ProjectArchive.ReadProjectFile` omits the `except (OSError, UnicodeDecodeError)` branch, whose reply is "Failed to read file: ...". An OSError comes from the filesystem or the gzip stream while the archive is opened or read, and those are not modelled. A UnicodeDecodeError cannot arise, because the latin-1 fallback decodes every byte string.
- `_get_api_credentials` and `_create_client` are not modelled. Keys and client creation are parameters, and client-creation failures are not modelled.
- The "Unexpected error" catch-all branches of each tool are not modelled.
- Async execution, FastMCP registration, module-global injection, the stdio server and the CLIs are not modelled.
- `Text.Lower` is ASCII lower-casing, not Python's Unicode `str.lower`.
- `UrlTools.ExtractId` treats `\d` as ASCII digits, while Python's `\d` also matches other Unicode digits.
- `UrlTools.ValidWorkflowId` makes the same ASCII approximation of `\d` in `^\d+$`. So do the workflow, project and job URL patterns of `UrlTools.AnalyzeUrl`.
- Python's `$` accepting one trailing newline is modelled in `ValidProjectId` and `ValidWorkflowId`.
- `ProjectArchive.Decode` takes UTF-8 decoding as a function parameter. Latin-1 decoding is modelled exactly.
- `McpTools.ListWorkflows` takes the system-workflow test as a predicate parameter. It reads metadata from a dumped project record whose shape is not part of this model.
- `SearchTools.FindProject`: when every fallback lookup returns None, the reply is "found" with an empty list and count 0. This is what the code does, and the model keeps it.
- The tools outside the core are not modelled: listing databases and tables, `td_get_database`, `td_get_project`, and the diagnostic tools.

## Findings

| source | as written | input that shows it | evidently intended | confidence | as-written member | corrected member |
|---|---|---|---|---|---|---|
| td_mcp_server/api.py:169-174 | `end_index = offset + limit` when that is within bounds, then `all[offset:end_index]`. A negative limit gives a negative stop index, which Python counts from the end. | three items, `limit=-1`, `offset=0`, `all_results=False`: two items come back | a limit of zero or less gives an empty page, like an offset past the end | not executed | Api.NegativeLimitCounterexample | Api.Page |

The client's list methods and `McpTools.ListProjects` keep the paging as written. `Api.PageAsWrittenAgainstPage` shows that it departs from `Api.Page` only when `offset + limit` is negative.
