# SonarQube findings extraction, modelled in Dafny

The repository pulls static-analysis findings out of a SonarQube server and
writes one JSON report per project branch. A report holds the open issues and
the security hotspots still to review. Each finding is enriched with its rule's
description and, where it points at a line, with a snippet of the source. There
are two implementations, and this project models both:

- `SonarQubeFetcher` (`accuknox_sq_sast/sonarqube_fetcher.py`) is asynchronous.
  It lists the projects whose key matches a pattern. It fetches every branch of
  every project, pages the issue and hotspot searches (500 per page, at most 20
  pages), and makes up to three attempts at each detail request. It writes a report
  per branch and returns a summary line.
- The script `sq-job.py` is synchronous. It builds each report as hand-assembled
  JSON text. It retries each hotspot, rule and snippet request until it is
  answered, and follows the component listing until a page comes back empty.
  Its other calls report the connection-error message on their first exception.

## How the model is built

- **The server** is a function `Server = (nat, Request) -> Reply` of the call's
  sequence number and the request (endpoint and parameters). A reply is either
  an exception raised by the HTTP layer or a `Response(status, body)`. Because
  the call number is an argument, a retried call can see a different answer.
  Every operation threads the number of calls made so far.
- **JSON values** are a `Json` datatype (`None`, booleans, integers, strings,
  lists, dicts). A Python exception is an `Err` carrying the text of `str(e)`.
  Every site that catches exceptions catches `Exception`, so only that text
  matters.
- **`SonarQubeFetcher`** is a Dafny class. Its fields are the server, the token,
  the configuration, the call counter (the progress counter of the source) and a
  log of the files written. Each `async` method is a method that updates the
  counter and the log. Each is proved equal to a function in module
  `FetcherSpec`, and the properties are lemmas about those functions in
  `FetcherProps`.
  - `asyncio.gather` without `return_exceptions` is read as an in-order map
    that stops at the first exception.
  - The top-level gather in `fetch_all`, which captures exceptions, is an
    in-order map that collects every outcome.
- **`sq-job.py`** is modelled by the methods of `SqJob`, one per function or
  loop, each proved equal to a function in `SqJobSpec`. The properties are
  lemmas in `SqJobProps`. Two of its loops have no bound in the source, so they
  are defined under stated assumptions:
  - the retry loops `while not success` under `Patient(server)`: every request
    is eventually answered with status 200;
  - the `while True` component loop under `ListingEnds`: some later page has no
    components.
- **Globals and foreign libraries** are fields of an `Env` or `Config` value:
  `sq_projects` as a predicate on keys, `sq_org`, the report directory, and in
  `Env` also `json.dumps` of a finding, BeautifulSoup's `get_text`, and
  `reprContainer`, which stands for `str()` of a list or dict where the script
  formats a project key or branch into the report name and its `"branch"` entry.
  The fetcher's `json.dump` is not a parameter: a report is the `Document` value
  of a `Write(path, doc)`. `repr` of the list of written paths, in both success
  messages, is `PyJson.ReprList`.
- **Module `Gateway`** holds the request type, the server oracle and the two
  ways a reply is classified, `Classify` for `_async_sq_api` and `SqApi` for
  `sq_api`. **Module `PyJson`** holds the JSON datatype and the Python string
  and dict operations both implementations use: indexing, `get`, `lstrip`,
  `rstrip`, `replace`, `os.path.join` and `urljoin`.

## Quirks the model keeps

The model follows the code as written, including these behaviours, each proved
as a lemma.

- **Retries on `None`.** `_get_issue_details` retries a detail request when it
  raises. A `None` answer (status 401, another status, or an `errors` payload)
  also makes `"rule" in data` raise, so it is retried too
  (`FetcherProps.NoneAnswerFails`).
- **Snippet indentation.** The code prepends `len(code) - len(code.lstrip())`
  spaces to a code that still has its own, so `n` leading spaces become `2n`
  (`FetcherProps.SnippetDoublesIndent`). The script does the same before the
  text extraction (`SqJobProps.SnippetLineIndent`).
- **The component listing.** It asks for one page more than needed when the
  total is a positive multiple of 500, which a server whose total is exact
  answers with no components (`FetcherProps.ComponentPagesCount`).
- **`urljoin` in the script.** Joining the issues, components and branches
  endpoints to the Sonar URL drops the URL's last path segment. The hotspots,
  rules and snippets endpoints are built by formatting and keep it
  (`SqJobProps.JoinReplacesLastSegment`, `SqJobProps.IssuesAndHotspotsEndpoints`).
- **Hotspot paging.** The script reads later hotspot pages from a total of 500
  on, but later issue pages only above 500
  (`SqJobProps.HotspotsPagingThreshold`, `SqJobProps.IssuesPagingThreshold`).

## Model

| member | source | states |
|---|---|---|
| Gateway.Classify | accuknox_sq_sast/sonarqube_fetcher.py:23-40 | an exception from the HTTP layer propagates; any status but 200 gives `None`; a result other than `None` is the 200 body, which has no `errors`; a 200 dict body has `errors` exactly when the result is `None` or the error raised while logging its message |
| Gateway.Batch | accuknox_sq_sast/sonarqube_fetcher.py:42-48 | a `None` answer gives `[]`; an exception propagates; a dict answer gives its listing field, or `[]` when the field is missing |
| Gateway.SqApi | sq-job.py:45-63 | an exception propagates; status 401 raises the authentication error and any other status but 200 the API error; it returns exactly for status 200, and then returns the status and the body |
| Fetcher.SonarQubeFetcher.constructor | accuknox_sq_sast/sonarqube_fetcher.py:15-21 | the fetcher keeps the server, token, organization, pattern and report path, stores the URL with every trailing `/` removed, starts with no calls made and writes no files |
| Fetcher.SonarQubeFetcher.AsyncSqApi | accuknox_sq_sast/sonarqube_fetcher.py:23-40 | one call is counted, no file is written, and the result is the classified reply to that call |
| Fetcher.SonarQubeFetcher.GetIssuesBatch | accuknox_sq_sast/sonarqube_fetcher.py:42-44 | one call; the page's `issues`, or `[]` for a failed or falsy answer |
| Fetcher.SonarQubeFetcher.GetHotspotsBatch | accuknox_sq_sast/sonarqube_fetcher.py:46-48 | one call; the page's `hotspots`, or `[]` for a failed or falsy answer |
| Fetcher.SonarQubeFetcher.GetIssueDetails | accuknox_sq_sast/sonarqube_fetcher.py:50-82 | the finding and the calls made are those of the three-attempt retry of the rule or hotspot request; no file is written |
| Fetcher.SonarQubeFetcher.GetSnippet | accuknox_sq_sast/sonarqube_fetcher.py:84-107 | the finding and the calls made are those of `FetcherSpec.Snippet`; no file is written |
| Fetcher.SonarQubeFetcher.ProcessIssues | accuknox_sq_sast/sonarqube_fetcher.py:109-113 | all details are fetched first, then all snippets, in listing order; the first exception aborts the rest |
| Fetcher.SonarQubeFetcher.GatherDetails | accuknox_sq_sast/sonarqube_fetcher.py:110-111 | the loop over the findings gives the in-order details of all of them, or the first exception |
| Fetcher.SonarQubeFetcher.GatherSnippets | accuknox_sq_sast/sonarqube_fetcher.py:112-113 | the loop over the findings gives the in-order snippets of all of them, or the first exception |
| Fetcher.SonarQubeFetcher.FetchListing | accuknox_sq_sast/sonarqube_fetcher.py:127-131 | page 1's list, extended with the batches of pages 2 up to `min(20, (total - 1) // 500 + 1)` when the total exceeds 500 |
| Fetcher.SonarQubeFetcher.GatherBatches | accuknox_sq_sast/sonarqube_fetcher.py:129-131 | one request per extra page, in page order, with the batches in that order |
| Fetcher.SonarQubeFetcher.GetResultsAsync | accuknox_sq_sast/sonarqube_fetcher.py:115-164 | the result, the files written and the calls made are those of `FetcherSpec.FetchBranch` |
| Fetcher.SonarQubeFetcher.SaveWithHotspots | accuknox_sq_sast/sonarqube_fetcher.py:136-161 | the hotspots stage of a branch: its result, the report it writes and the calls it makes |
| Fetcher.SonarQubeFetcher.ProcessProject | accuknox_sq_sast/sonarqube_fetcher.py:166-182 | the branch list, then each branch in order; the first failed branch raises |
| Fetcher.SonarQubeFetcher.FetchAll | accuknox_sq_sast/sonarqube_fetcher.py:184-220 | the summary line, the files written and the calls made are those of `FetcherSpec.Extraction` |
| Fetcher.SonarQubeFetcher.CollectProjectKeys | accuknox_sq_sast/sonarqube_fetcher.py:185-203 | the matching keys of the first page, then of every later page in order |
| Fetcher.SonarQubeFetcher.AppendMatching | accuknox_sq_sast/sonarqube_fetcher.py:201-203 | the loop over one page's components appends exactly the keys `FetcherSpec.FilterKeys` keeps |
| Fetcher.SonarQubeFetcher.ProcessProjects | accuknox_sq_sast/sonarqube_fetcher.py:208-209 | every project is processed in key order, and each outcome is collected |
| FetcherSpec.Range | accuknox_sq_sast/sonarqube_fetcher.py:128 | `range(lo, hi)`: `hi - lo` integers (none when `hi <= lo`), from `lo` up, in order |
| FetcherSpec.DetailRequest | accuknox_sq_sast/sonarqube_fetcher.py:51-58 | a request is built only for a finding that is a dict; for any other finding the subscript raises |
| FetcherSpec.BranchBody | accuknox_sq_sast/sonarqube_fetcher.py:122-161 | the branch result has a path exactly on success; a success is "Success." with exactly one report, at the path named after the branch and holding that branch; a failure writes nothing |
| FetcherSpec.HotspotsStage | accuknox_sq_sast/sonarqube_fetcher.py:136-161 | the same shape as `BranchBody` for the stage after the issues: a path exactly on success, one report named after the branch, nothing written on failure |
| FetcherSpec.Saved | accuknox_sq_sast/sonarqube_fetcher.py:155-161 | a saved branch is a success with exactly one report, written to the path named after the branch and holding that branch |
| FetcherSpec.FetchBranch | accuknox_sq_sast/sonarqube_fetcher.py:115-164 | whatever the server answers, the result has a path exactly on success, a success has written exactly the one report named by that path, and a failure, including a caught exception, writes nothing |
| FetcherProps.ExtraPagesShape | accuknox_sq_sast/sonarqube_fetcher.py:127-129 | the extra pages are 2, 3, … in order and never more than 19; there are none at or below 500; below the cap there are exactly as many as the total needs |
| FetcherProps.ComponentPagesCount | accuknox_sq_sast/sonarqube_fetcher.py:197-199 | the component listing has no page cap, and it reads one page more than needed when the total is a positive multiple of 500 |
| FetcherProps.SmallListingIsFirstPage | accuknox_sq_sast/sonarqube_fetcher.py:124-131 | a total of 500 or less gives page 1 alone, with no further call |
| FetcherProps.BatchesInOrder | accuknox_sq_sast/sonarqube_fetcher.py:129-130 | when no page raises, one call is made per page, in page order, and each batch is that page's answer |
| FetcherProps.ExtendAllAppends | accuknox_sq_sast/sonarqube_fetcher.py:130-131 | extending page 1's list with the batches appends their items in page order |
| FetcherProps.ExtendNonList | accuknox_sq_sast/sonarqube_fetcher.py:130-131 | a listing field that is not a list raises at `extend` as soon as a further page exists |
| FetcherProps.NoneAnswerFails | accuknox_sq_sast/sonarqube_fetcher.py:63-64 | a `None` answer is a failed attempt, raising at `"rule" in data` |
| FetcherProps.RetryOutcome | accuknox_sq_sast/sonarqube_fetcher.py:60-80 | the first successful attempt is the result; at most three calls are made; after three failures the third exception propagates |
| FetcherProps.IssueDescription | accuknox_sq_sast/sonarqube_fetcher.py:73-75 | an issue's `description` is the rule's truthy `htmlDesc`, else its `descriptionSections`, else "No Description Available." |
| FetcherProps.HotspotFields | accuknox_sq_sast/sonarqube_fetcher.py:64-72 | a hotspot gains the rule's four texts, `"None"` for each one missing, and `comments`, `[]` when missing |
| FetcherProps.NoRuleKeepsFinding | accuknox_sq_sast/sonarqube_fetcher.py:64-76 | an answer without `rule` leaves the finding as it was |
| FetcherProps.MergeExtends | accuknox_sq_sast/sonarqube_fetcher.py:64-76 | a merge sets only the detail keys of its kind and keeps every other field |
| FetcherProps.RetryExtends | accuknox_sq_sast/sonarqube_fetcher.py:60-82 | whichever attempt succeeds, only the detail keys change |
| FetcherProps.IneligibleUntouched | accuknox_sq_sast/sonarqube_fetcher.py:85-86 | a finding without `line` and without `textRange` is returned unchanged, with no call |
| FetcherProps.SnippetOnlyAddsSnippet | accuknox_sq_sast/sonarqube_fetcher.py:84-107 | an eligible finding without `key` raises before any call; otherwise one call is made and nothing raises; the finding comes back unchanged or with only `snippet` set, to a non-empty list |
| FetcherProps.SnippetFailureKeepsFinding | accuknox_sq_sast/sonarqube_fetcher.py:88-107 | an exception inside the `try` (a raising or `None` answer, a component entry that is not a dict, `sources` that cannot be iterated) leaves the finding unchanged, after the one call |
| FetcherProps.SnippetOfSources | accuknox_sq_sast/sonarqube_fetcher.py:88-104 | when the payload lists the component's sources, `snippet` is set to every kept source line in order, and only when there is one |
| FetcherProps.SnippetDoublesIndent | accuknox_sq_sast/sonarqube_fetcher.py:96-100 | a source line with `n` leading spaces keeps its line number, and its code gets `2n` leading spaces |
| FetcherProps.IndentDoubled | accuknox_sq_sast/sonarqube_fetcher.py:99-100 | prepending the leading-space count of a code to that code doubles its indentation |
| FetcherProps.SnippetEntriesFromSources | accuknox_sq_sast/sonarqube_fetcher.py:94-100 | the snippet has no more lines than the sources, and every kept line comes from one source |
| FetcherProps.SelectedLast | accuknox_sq_sast/sonarqube_fetcher.py:94-100 | the reference selection, defined from the front, keeps the last source's line last |
| FetcherProps.SnippetEntriesAreSelected | accuknox_sq_sast/sonarqube_fetcher.py:94-100 | the `for source in sources` loop collects exactly the independent reference selection: every kept source line, once, in source order |
| FetcherProps.DetailsAllExtends | accuknox_sq_sast/sonarqube_fetcher.py:110-111 | the details give one finding per listed finding, in order, each changed only in its detail keys |
| FetcherProps.SnippetsAllExtends | accuknox_sq_sast/sonarqube_fetcher.py:112-113 | the snippets give one finding per finding, in order, each changed only in `snippet` |
| FetcherProps.EnrichKeepsFindings | accuknox_sq_sast/sonarqube_fetcher.py:109-113 | `_process_issues` returns one finding per listed finding, in order, each changed only in its detail keys and `snippet` |
| FetcherProps.NoneIssuesFailsBranch | accuknox_sq_sast/sonarqube_fetcher.py:122-125 | a `None` answer to the first issues search fails the branch at `.get`, after that one call, writing nothing |
| FetcherProps.FalsyHotspotsFailsBranch | accuknox_sq_sast/sonarqube_fetcher.py:140-142 | a falsy hotspot answer fails the branch with "Failed to fetch hotspots" (no period), after that one call, writing nothing |
| FetcherProps.BranchSuffixOfNonString | accuknox_sq_sast/sonarqube_fetcher.py:156 | a truthy branch name that is not a string raises at `branch.replace` |
| FetcherProps.BranchNamesExact | accuknox_sq_sast/sonarqube_fetcher.py:171 | the names are read exactly when every branch is a dict with `name`, and then they are those names in order |
| FetcherProps.RunBranchesFiles | accuknox_sq_sast/sonarqube_fetcher.py:172-179 | on success every branch has written one file, in order, and the paths returned are those files; on failure fewer files than branches were written |
| FetcherProps.NamedPathsCons | accuknox_sq_sast/sonarqube_fetcher.py:156-161 | a report named after the first branch, before the reports named after the rest, names every branch in order |
| FetcherProps.RunBranchesPaths | accuknox_sq_sast/sonarqube_fetcher.py:171-179 | on success the `i`-th path is `<report path>/SQ-<key>-<branch i with / as _>.json` |
| FetcherProps.RunBranchesFailure | accuknox_sq_sast/sonarqube_fetcher.py:172-178 | on failure some branch `i` is the first to fail: the branches before it succeed, the message raised is branch `i`'s, the writes are those of the earlier branches, and the call count ends right after branch `i`, so no later branch runs |
| FetcherProps.FilterKeysExact | accuknox_sq_sast/sonarqube_fetcher.py:196 | the page is read exactly when every component has a string key; then exactly the keys the pattern matches are kept |
| FetcherProps.FilterKeysSplit | accuknox_sq_sast/sonarqube_fetcher.py:196 | filtering a listing in two parts is filtering the first, then the second: the kept keys stay in server order, each component once, and an exception in the first part is the result |
| FetcherProps.FilterKeysOne | accuknox_sq_sast/sonarqube_fetcher.py:196 | one component with a string key keeps that key exactly when the pattern matches it |
| FetcherProps.ScanReports | accuknox_sq_sast/sonarqube_fetcher.py:211-218 | the first failed project in key order is reported; if none failed, every collected file is listed |
| FetcherProps.RunProjectsLength | accuknox_sq_sast/sonarqube_fetcher.py:208-209 | one outcome per project key |
| FetcherProps.ExtractionReports | accuknox_sq_sast/sonarqube_fetcher.py:184-220 | a listing exception gives "An error occurred: …" and no matching key gives "No matching projects found.", both with no write; otherwise every project runs, and the summary names the first failure or every file written |
| SqJob.AwaitAnswer | sq-job.py:227-233 | `while not success` returns the first answered call and the number of calls made to reach it |
| SqJob.BuildSnippet | sq-job.py:295-306 | the `for source in sources` loop builds exactly `SqJobSpec.SnippetLines` |
| SqJob.DescribeHotspot | sq-job.py:225-263 | the hotspot's merge with the first answered `hotspots/show` call |
| SqJob.DescribeIssue | sq-job.py:264-281 | the issue's merge with the first answered `rules/show` call; a missing `rule` raises |
| SqJob.AttachSnippet | sq-job.py:282-310 | the finding with the snippet from the first answered `issue_snippets` call |
| SqJob.EnrichFinding | sq-job.py:213-310 | the loop body: the finding as it is dumped and the calls made, as `SqJobSpec.Enrich` defines them |
| SqJob.BuildIssuesString | sq-job.py:210-313 | `_build_issues_string` is `SqJobSpec.BuildText` |
| SqJob.TurnPage | sq-job.py:116-133 | one turn of the page loop is `SqJobSpec.PageTurn` |
| SqJob.FollowPages | sq-job.py:114-135 | the page loop from page 1 is `SqJobSpec.PageLoop` |
| SqJob.CollectIssues | sq-job.py:78-137 | the issues part of the report text is `SqJobSpec.IssuesSection` |
| SqJob.ListIssues | sq-job.py:97-137 | the issues list is `SqJobSpec.IssuesList` |
| SqJob.CollectHotspots | sq-job.py:140-199 | the hotspots part is `SqJobSpec.HotspotsSection` |
| SqJob.ListHotspots | sq-job.py:163-199 | the hotspots list is `SqJobSpec.HotspotsList` |
| SqJob.GetResults | sq-job.py:65-207 | `_get_results` and the file it writes are `SqJobSpec.Results` |
| SqJob.Run | sq-job.py:325-366 | `run` is `SqJobSpec.RunOutcome` |
| SqJob.Launch | sq-job.py:352-366 | the part of `run` after validation is `SqJobSpec.Launched` |
| SqJob.FirstPageKeys | sq-job.py:413-420 | the loop over the first page of components is `SqJobSpec.MatchingKeys` |
| SqJob.AppendKeys | sq-job.py:431-432 | the loop over a later page appends `SqJobSpec.AllKeys` of that page |
| SqJob.ReadPage | sq-job.py:424-435 | one later page is `SqJobSpec.LaterPage` of its reply |
| SqJob.FollowListing | sq-job.py:422-435 | the `while True` loop is `SqJobSpec.LaterKeys` up to the page where the listing ends |
| SqJob.ListKeys | sq-job.py:392-435 | the project keys are `SqJobSpec.KeyListing` |
| SqJob.ScanBranches | sq-job.py:456-470 | the branch loop is `SqJobSpec.BranchesLoop` |
| SqJob.ScanProject | sq-job.py:445-470 | one project is `SqJobSpec.ProjectStep` |
| SqJob.ScanProjects | sq-job.py:444-470 | the project loop is `SqJobSpec.ProjectsLoop` from an empty file list |
| SqJob.GetAllResults | sq-job.py:369-471 | `get_all_results` is `SqJobSpec.AllResults` |
| SqJobSpec.FirstAnswered | sq-job.py:228-233 | the call number of the first answered call from `t` on: it is answered and none before it is |
| SqJobSpec.AnsweredCall | sq-job.py:228-233 | the body of the first answered call, and the call count after it |
| SqJobSpec.PageTurn | sq-job.py:116-133 | a turn that stops the run stops it with the connection-error message |
| SqJobSpec.PageLoop | sq-job.py:115-135 | a page loop that stops the run stops it with the connection-error message |
| SqJobSpec.IssuesSection | sq-job.py:78-137 | an issues part that stops the run stops it with the connection-error message |
| SqJobSpec.IssuesList | sq-job.py:97-137 | an issues list that stops the run stops it with the connection-error message |
| SqJobSpec.HotspotErrors | sq-job.py:151-161 | a listing with `errors` always gives a failure with no path |
| SqJobSpec.HotspotsSection | sq-job.py:140-199 | a hotspots part that stops the run gives a failure with no path |
| SqJobSpec.HotspotsList | sq-job.py:163-199 | a hotspots list that stops the run stops it with the connection-error message |
| SqJobSpec.Results | sq-job.py:65-207 | when it does not raise, the result has a path exactly on success; a success is "Success." with exactly one file written, at that path; a failure writes nothing |
| SqJobSpec.ListingEnd | sq-job.py:422-435 | a later page at which the component listing does not go on |
| SqJobSpec.LaterPage | sq-job.py:424-435 | a page that goes on is an answered page with truthy `components`; the connection is lost exactly when the call raises |
| SqJobProps.SnippetEligibility | sq-job.py:214-223 | a finding gets a snippet exactly when `issue["line"]` or `issue["textRange"]["startLine"]` can be read |
| SqJobProps.RuleTextOfDict | sq-job.py:236-255 | each rule text is the rule's field, or `"None"` when it lacks it |
| SqJobProps.HotspotWithoutRule | sq-job.py:234-263 | an answer without `rule` only adds `comments`, `[]` when the answer has no `comment` |
| SqJobProps.HotspotWithRule | sq-job.py:234-263 | a dict rule adds exactly the four texts, each `"None"` when missing, and `comments`; other fields are kept |
| SqJobProps.IssueDescription | sq-job.py:277-281 | an issue gains `description`: the rule's `htmlDesc`, or "No Description Available." |
| SqJobProps.IssueWithoutRuleRaises | sq-job.py:277 | an answer without `rule` raises a KeyError that nothing catches |
| SqJobProps.SnippetLineIndent | sq-job.py:296-303 | a code of `n` blanks before text keeps its line, and becomes `n` spaces before the extracted text of the whole code |
| SqJobProps.SnippetLineDropped | sq-job.py:296-306 | a source without `line`, or whose `code` is not a string, is dropped |
| SqJobProps.KeptLast | sq-job.py:295-306 | the reference selection of kept lines keeps the last source's line last |
| SqJobProps.SnippetLinesAreKept | sq-job.py:295-306 | the snippet the loop builds is the in-order selection of the kept lines |
| SqJobProps.WithSnippetOnlySetsSnippet | sq-job.py:291-310 | the snippet step sets only `snippet` (even to an empty list) and keeps every other field |
| SqJobProps.WithSnippetOfSources | sq-job.py:291-307 | when `data[component]["sources"]` is a list, `snippet` is set to its kept lines |
| SqJobProps.ReportNameShape | sq-job.py:203-204 | a string branch names `SQ-<key>-<branch>.json` in the report directory, with no `/` left in the branch part; any other branch raises at `branch.replace` |
| SqJobProps.MissingParamInjective | sq-job.py:316-322 | different parameter names give different messages |
| SqJobProps.MissingOrder | sq-job.py:346-351 | the key is validated first, then the token, then the URL |
| SqJobProps.TrimmedRemovesOneSlash | sq-job.py:352-353 | a URL ending in `/` loses exactly that one slash, any other URL is kept, and of two trailing slashes one stays |
| SqJobProps.RStripRemovesAllSlashes | accuknox_sq_sast/sonarqube_fetcher.py:16 | `rstrip("/")` removes every trailing slash, where the script removes one |
| SqJobProps.HttpsSeparator | sq-job.py:78 | an `https://` URL has its scheme separator at index 5 |
| SqJobProps.JoinReplacesLastSegment | sq-job.py:78 | `urljoin` of a base with one path segment replaces that segment |
| SqJobProps.JoinHostOnly | sq-job.py:78 | `urljoin` of a base without a path gives `/` and the relative path |
| SqJobProps.IssuesAndHotspotsEndpoints | sq-job.py:78 | the issues endpoint drops the Sonar URL's path segment, and the hotspots endpoint keeps it |
| SqJobProps.DumpedAppend | sq-job.py:311-312 | the dumped text of two runs of findings is the two texts one after the other |
| SqJobProps.DumpedIsJoined | sq-job.py:311-312 | a nonempty run of dumped findings is their joined text followed by one `, ` |
| SqJobProps.TrimDumped | sq-job.py:136 | `results[:-2]` after a nonempty run of findings removes exactly the last separator |
| SqJobProps.EnrichFirst | sq-job.py:213-312 | one turn of the loop over the findings, and of its reference |
| SqJobProps.BuildAllIsDumped | sq-job.py:210-313 | `_build_issues_string` appends exactly the enriched findings, in listing order, each followed by `, `, and fails exactly when one cannot be enriched |
| SqJobProps.ExtendsTrans | sq-job.py:110-135 | appending findings twice is appending findings |
| SqJobProps.BuildTextExtends | sq-job.py:210-313 | `_build_issues_string` only appends findings to the text |
| SqJobProps.PageLoopExtends | sq-job.py:114-135 | the later pages only append findings to the text |
| SqJobProps.PageLoopAtLastPage | sq-job.py:115 | from page 20 on, no further page is requested |
| SqJobProps.PageLoopEmptyPage | sq-job.py:116-135 | an empty page ends the loop after its one request, with the text unchanged |
| SqJobProps.IssuesListShape | sq-job.py:105-137 | a zero total gives `"issues": [], `; otherwise the opening bracket, some run of dumped findings and `], `, with the last separator cut |
| SqJobProps.IssuesPagingThreshold | sq-job.py:114 | later issue pages are read only when the total exceeds 500 |
| SqJobProps.HotspotsListShape | sq-job.py:163-199 | a zero total replaces the last separator by `}`; a negative total leaves the text unclosed; a positive one appends findings and `]}` |
| SqJobProps.HotspotsPagingThreshold | sq-job.py:176 | later hotspot pages are read from a total of 500 on |
| SqJobProps.HotspotErrorsMessage | sq-job.py:151-161 | "Insufficient privileges" gives the privileges message, any other first `msg` is returned verbatim, and a missing one gives "An unspecified error occurred." |
| SqJobProps.NonStringBranchNeverSucceeds | sq-job.py:203-207 | a branch that is not a string never produces a success, and writes nothing |
| SqJobProps.RunReportsItsFile | sq-job.py:346-366 | `run` writes at most one file, and when it writes one its message is "Success! Data written to " and that path; a missing parameter is reported with no call and no write |
| SqJobProps.MatchingKeysDefined | sq-job.py:413-420 | the first page raises exactly when a component has no key or a key that is not a string |
| SqJobProps.MatchingKeysExact | sq-job.py:413-420 | the first page keeps exactly the components' keys that match `sq_projects` |
| SqJobProps.MatchingKeysSplit | sq-job.py:413-420 | the first page in two parts keeps the matching keys of the first part, then those of the second: server order, each component once |
| SqJobProps.MatchingKeysOne | sq-job.py:413-420 | one component with a string key keeps that key exactly when `sq_projects` matches it |
| SqJobProps.AllKeysExact | sq-job.py:431-432 | a later page keeps every key, in order, and raises exactly when a component has no `key` |
| SqJobProps.LaterKeysGrow | sq-job.py:422-435 | the keys collected so far stay first, and the keys of later pages follow them |
| SqJobProps.LaterKeysAnyEnd | sq-job.py:422-435 | the listing stops at its first page without components, whichever end it is known to reach |
| SqJobProps.Paths | sq-job.py:464-465 | the paths of the files written, in order |
| SqJobProps.BranchesLoopCompletedStep | sq-job.py:456-470 | a branch loop that completes has written the first branch's report and then completed on the rest |
| SqJobProps.AfterKeepsOrder | sq-job.py:464-465 | files written before a loop that completes come first in its list |
| SqJobProps.OneReport | sq-job.py:464-465 | a successful `_get_results` adds the one file it wrote |
| SqJobProps.BranchesLoopFiles | sq-job.py:456-470 | a completed branch loop has added every file it wrote to `file_list`, in the order written |
| SqJobProps.ProjectStepFiles | sq-job.py:445-470 | a completed project has added every file it wrote, in order |
| SqJobProps.ProjectsLoopCompletedStep | sq-job.py:444-470 | a completed project loop has completed the first project and then the rest |
| SqJobProps.ProjectsLoopFiles | sq-job.py:444-470 | a completed project loop has added every file written, in order |
| SqJobProps.BranchesLoopFirst | sq-job.py:456-465 | a branch loop whose first branch is written goes on with the rest, that file added |
| SqJobProps.BranchHaltsShift | sq-job.py:456-470 | a halt at branch `j` of the rest is a halt at branch `j + 1` once the first branch is written |
| SqJobProps.BranchesLoopHalts | sq-job.py:456-470 | a halted branch loop stops at the first branch whose `_get_results` fails: the branches before it complete, the message is that failure's, the files are those of the earlier branches, and the call count ends right after it |
| SqJobProps.ProjectStepHalts | sq-job.py:447-470 | a project halts with the connection message (one call, no write) when its branch list raises, and otherwise exactly as its branch loop halts |
| SqJobProps.ProjectsLoopFirst | sq-job.py:444-470 | a project loop whose first project completes goes on with the rest |
| SqJobProps.ProjectHaltsShift | sq-job.py:444-470 | a halt at project `j` of the rest is a halt at project `j + 1` once the first project completes |
| SqJobProps.ProjectsLoopHalts | sq-job.py:444-470 | a halted project loop stops at the first project that halts: the projects before it complete, and its report, writes and call count end the loop |
| SqJobProps.AllResultsChecks | sq-job.py:385-390 | a falsy token, and then a falsy URL, is reported by its missing-parameter message with no call and no write |
| SqJobProps.AllResultsOutcome | sq-job.py:437-471 | a lost connection or an empty key list is reported with no write; a halted project loop returns its message with its writes and call count; when every branch of every project was written, the summary lists exactly the files written, in order |

## Left out

- Fetcher.SonarQubeFetcher.constructor: the default arguments of `__init__` are not modelled; every argument is passed explicitly, and no behaviour depends on the defaults.
- HTTP, authentication and the token: the server is the `Server` oracle. The token is only tested for truthiness where the source tests it.
- Concurrency: the interleaving of `asyncio` tasks is not modelled. Each `gather` is a sequential in-order map, so the call numbers in the model follow that order.
- The five-second sleeps between retries and the `tqdm` progress bar: time is not modelled. The bar's count is the call counter.
- Logging: `log.error` and `traceback.format_exc` have no effect on results.
- The unbounded `while not success` retries and the `while True` component loop of `sq-job.py` are modelled only under `Patient(server)` and `ListingEnds`. A server that never answers, or a listing that never ends, makes the source loop forever, and that case is not modelled.
- `json.dumps` of a finding, BeautifulSoup's `get_text`, `str()` of a list or dict key or branch (`Env.reprContainer`) and `re.search` on project keys (`projects`) are parameters of `Env` and `Config`. Their outputs are not modelled, so the script's report text and names are only known up to them. The fetcher's `json.dump` is modelled as the `Document` written, not as its text.
- `re.search` with an invalid pattern: the pattern (`--projects` or `SQ_PROJECTS`) is assumed to compile, and `re.error` is not modelled. `projects` is a total predicate, so `PyJson.Search` raises only for a non-string key. With an invalid pattern the fetcher would report the error through its catch-all in `fetch_all`, and `sq-job.py` would let it escape from the key listing; neither path is in the model.
- `repr` of a string follows CPython's quoting only for strings without quotes, backslashes or control characters; other strings are escaped by a stand-in.
- File writes are a log of (path, contents) entries. Failures of `open` and the file system are not modelled. `os.path.join` follows POSIX.
- `urljoin` is modelled for a relative path without dot segments, query or fragment, which is what the script passes it. On the base side only the scheme, host and path are modelled: a base with a query or fragment (`https://h?x=1`), or one whose scheme `urllib` does not join, gives a different result from `urllib`.
- `SqJobSpec.KeyListing` and its callers require `ListingEnds` even when the first page's total is 500 or less and the `while True` loop is never entered. In that case the requirement is about answers to calls that are never made, and a server can always be chosen to meet it, so it excludes no behaviour of the script.
- Floats in JSON, and the key order of dicts, are not modelled. Iterating over a JSON dict yields placeholder strings, since every site that does so then fails independent of the keys.
- Exception texts follow CPython's wording (`'key'` for a KeyError, `'NoneType' object has no attribute 'get'`, …).
- In-place mutation of a finding dict (`issue.update`) is modelled on values. Aliasing between the listed finding and the enriched one is not captured.
- `prereq` in `sq-job.py` returns `""` before any other statement, so its test in `run` never fires. The model leaves out `prereq` and what follows its early return.
- `get_some_results` (it uses a Redis client the script never defines), `get_all_results_main_branch` and the command-line entry points are not part of this model.
- SqJobProps.IssuesListShape: for a nonzero total, it states only that dumped findings are appended and the list closed. Which findings a page appends is stated per page by `SqJobProps.BuildAllIsDumped`, not across pages, because the pages read depend on the answers to calls made in between.
- SqJobProps.HotspotsListShape: for a positive total, it states only that findings are appended and the text closed. Which findings are appended is stated by `SqJobProps.BuildAllIsDumped`.
