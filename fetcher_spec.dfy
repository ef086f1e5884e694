/** What `SonarQubeFetcher` (accuknox_sq_sast/sonarqube_fetcher.py) computes, as
    functions of the server oracle and the number of calls made before.

    Each function returns its result together with the number of calls made by
    the end, so that sequential composition is explicit. `asyncio.gather` is read
    as an in-order map: its results come back in argument order, and without
    `return_exceptions` the first exception (in that order) is the one raised. */
module FetcherSpec {
  import opened PyJson
  import opened Gateway

  /** The fetcher's settings once constructed. `projects` is the regular
      expression `sq_projects` as a predicate (`re.search` found a match). */
  datatype Config = Config(url: string, org: string, projects: string -> bool, reportPath: string)

  datatype FetchResult = FetchResult(success: bool, path: Option<string>, message: string)

  /** The content of one report file: `{"branch", "issues", "hotspots"}`. */
  datatype Document = Document(branch: Json, issues: seq<Finding>, hotspots: seq<Finding>)

  /** One report file written (an existing file of that name is overwritten). */
  datatype Write = Write(path: string, doc: Document)

  const PageSize := 500
  const MaxRetries := 3
  const NoDescription := "No Description Available."
  const HotspotsFailed := "Failed to fetch hotspots"
  const NoProjects := "No matching projects found."

  /** Python's `range(lo, hi)`. */
  function Range(lo: int, hi: int): (r: seq<int>)
    decreases hi - lo
    ensures |r| == if lo < hi then hi - lo else 0
    ensures forall i :: 0 <= i < |r| ==> r[i] == lo + i
  {
    if lo >= hi then [] else [lo] + Range(lo + 1, hi)
  }

  function Min(a: int, b: int): int { if a <= b then a else b }

  /** The value of `key` in a finding, `None` (`Null`) when absent: `d.get(key)`. */
  function Field(f: Finding, key: string): Json {
    if key in f then f[key] else Null
  }

  // ---------------------------------------------------------------------------
  // Rule and hotspot details (_get_issue_details)

  /** The request for a finding's details; building it reads `key` (hotspot) or
      `rule` (issue) from the finding, which raises outside the retry loop. */
  function DetailRequest(cfg: Config, issue: Json, hotspot: bool): (r: Result<Request>)
    ensures r.Ok? ==> issue.Obj?
  {
    if hotspot then
      var key :- Index(issue, "key");
      Ok(Request(cfg.url + "/api/hotspots/show", map["hotspot" := key]))
    else
      var rule :- Index(issue, "rule");
      var params := map["key" := rule];
      Ok(Request(cfg.url + "/api/rules/show",
                 if cfg.org != "" then params["organization" := Str(cfg.org)] else params))
  }

  /** The merge of one detail payload into the finding. */
  function MergeDetail(issue: Finding, data: Json, hotspot: bool): Result<Finding> {
    var hasRule :- Contains(data, "rule");
    if !hasRule then Ok(issue)
    else if hotspot then
      var rule :- Index(data, "rule");
      var name :- Get(rule, "name", Str("None"));
      var risk :- Get(rule, "riskDescription", Str("None"));
      var vulnerability :- Get(rule, "vulnerabilityDescription", Str("None"));
      var fix :- Get(rule, "fixRecommendations", Str("None"));
      var comments :- Get(data, "comment", Arr([]));
      Ok(issue["name" := name]["riskDescription" := risk]
              ["vulnerabilityDescription" := vulnerability]["fixRecommendations" := fix]
              ["comments" := comments])
    else
      var rule :- Index(data, "rule");
      var html :- Get(rule, "htmlDesc", Null);
      var description :- if Truthy(html) then Ok(html)
                         else Get(rule, "descriptionSections", Str(NoDescription));
      Ok(issue["description" := description])
  }

  /** One attempt: a gateway call whose payload is merged. */
  function Attempt(reply: Reply, issue: Finding, hotspot: bool): Result<Finding> {
    var data :- Classify(reply);
    MergeDetail(issue, data, hotspot)
  }

  /** Attempts number `attempt` .. 2 of the retry loop, starting at call `t`. */
  function Retry(server: Server, t: nat, req: Request, issue: Finding, hotspot: bool, attempt: nat)
    : (Result<Finding>, nat)
    requires attempt < MaxRetries
    decreases MaxRetries - attempt
  {
    var r := Attempt(server(t, req), issue, hotspot);
    if r.Ok? || attempt == MaxRetries - 1 then (r, t + 1)
    else Retry(server, t + 1, req, issue, hotspot, attempt + 1)
  }

  function Detail(server: Server, t: nat, cfg: Config, issue: Json, hotspot: bool): (Result<Finding>, nat) {
    match DetailRequest(cfg, issue, hotspot)
    case Err(e) => (Err(e), t)
    case Ok(req) => Retry(server, t, req, issue.fields, hotspot, 0)
  }

  // ---------------------------------------------------------------------------
  // Source snippets (_get_snippet)

  predicate SnippetEligible(f: Finding) {
    "line" in f || "textRange" in f
  }

  /** One source line of the snippet payload, when the inner `try` keeps it:
      `line` and `code` both truthy and `code` a string (anything else raises
      inside the inner `try` or fails the test). */
  function SnippetEntry(source: Json): Option<Json> {
    if !source.Obj? then None
    else
      var line := Field(source.fields, "line");
      var code := Field(source.fields, "code");
      if Truthy(line) && Truthy(code) && code.Str? then
        Some(Obj(map["line" := line, "code" := Str(Spaces(LeadingSpace(code.s)) + code.s)]))
      else None
  }

  /** The entries `fullSnippet` collects from `sources`, in order. */
  function SnippetEntries(sources: seq<Json>): seq<Json>
    decreases |sources|
  {
    if sources == [] then []
    else
      var n := |sources|;
      SnippetEntries(sources[..n - 1])
        + (match SnippetEntry(sources[n - 1]) case Some(e) => [e] case None => [])
  }

  /** The `sources` of the finding's component in a snippet payload; `None` when
      the outer `try` catches an exception before the loop. */
  function SnippetSources(data: Result<Json>, component: Json): Option<seq<Json>> {
    match data
    case Err(_) => None
    case Ok(data) =>
      match GetAny(data, component, Obj(map[]))
      case None => None
      case Some(componentData) =>
        match Get(componentData, "sources", Arr([]))
        case Err(_) => None
        case Ok(sources) =>
          match Iter(sources)
          case Err(_) => None
          case Ok(items) => Some(items)
  }

  function SnippetRequest(cfg: Config, key: Json): Request {
    Request(cfg.url + "/api/sources/issue_snippets", map["issueKey" := key])
  }

  /** `_get_snippet`. Reading `issue["key"]` happens outside the `try`. */
  function Snippet(server: Server, t: nat, cfg: Config, f: Finding): (Result<Finding>, nat) {
    if !SnippetEligible(f) then (Ok(f), t)
    else if "key" !in f then (Err(Exc(ReprStr("key"))), t)
    else
      var entries := match SnippetSources(Classify(server(t, SnippetRequest(cfg, f["key"]))), Field(f, "component"))
                     case None => []
                     case Some(sources) => SnippetEntries(sources);
      (Ok(if entries != [] then f["snippet" := Arr(entries)] else f), t + 1)
  }

  // ---------------------------------------------------------------------------
  // A batch of findings (_process_issues): every detail, then every snippet

  function DetailsAll(server: Server, t: nat, cfg: Config, items: seq<Json>, hotspot: bool)
    : (Result<seq<Finding>>, nat)
    decreases |items|
  {
    if items == [] then (Ok([]), t)
    else
      var (d, t1) := Detail(server, t, cfg, items[0], hotspot);
      if d.Err? then (Err(d.error), t1)
      else
        var (rest, t2) := DetailsAll(server, t1, cfg, items[1..], hotspot);
        (Prepend([d.value], rest), t2)
  }

  function SnippetsAll(server: Server, t: nat, cfg: Config, fs: seq<Finding>): (Result<seq<Finding>>, nat)
    decreases |fs|
  {
    if fs == [] then (Ok([]), t)
    else
      var (f, t1) := Snippet(server, t, cfg, fs[0]);
      if f.Err? then (Err(f.error), t1)
      else
        var (rest, t2) := SnippetsAll(server, t1, cfg, fs[1..]);
        (Prepend([f.value], rest), t2)
  }

  /** `_process_issues`. */
  function Enrich(server: Server, t: nat, cfg: Config, items: Json, hotspot: bool)
    : (Result<seq<Finding>>, nat)
  {
    match Iter(items)
    case Err(e) => (Err(e), t)
    case Ok(list) =>
      var (details, t1) := DetailsAll(server, t, cfg, list, hotspot);
      if details.Err? then (details, t1)
      else SnippetsAll(server, t1, cfg, details.value)
  }

  // ---------------------------------------------------------------------------
  // Listing pagination (_get_results_async)

  /** The listing field of a search payload and of its batch helper. */
  function ListField(hotspot: bool): string {
    if hotspot then "hotspots" else "issues"
  }

  /** The indices of the pages fetched after page 1 for a listing of `total`
      items: `range(2, min((total - 1) // 500, 19) + 2)`, only when total > 500. */
  function ExtraPages(total: int): seq<int> {
    if total > PageSize then Range(2, Min((total - 1) / PageSize, 19) + 2) else []
  }

  /** The batch results of the pages, in page order; the first exception ends it. */
  function Batches(server: Server, t: nat, req: Request, field: string, pages: seq<int>)
    : (Result<seq<Json>>, nat)
    decreases |pages|
  {
    if pages == [] then (Ok([]), t)
    else
      var b := Batch(server(t, WithPage(req, pages[0])), field);
      if b.Err? then (Err(b.error), t + 1)
      else
        var (rest, t2) := Batches(server, t + 1, req, field, pages[1..]);
        (Prepend([b.value], rest), t2)
  }

  /** `for r in results: acc.extend(r)`. */
  function ExtendAll(acc: Json, values: seq<Json>): Result<Json>
    decreases |values|
  {
    if values == [] then Ok(acc)
    else
      var next :- Extend(acc, values[0]);
      ExtendAll(next, values[1..])
  }

  /** The whole listing, given page 1's items and the reported total. */
  function Paginate(server: Server, t: nat, req: Request, field: string, first: Json, total: Json)
    : (Result<Json>, nat)
  {
    match Greater(total, PageSize)
    case Err(e) => (Err(e), t)
    case Ok(more) =>
      if !more then (Ok(first), t)
      else
        var (values, t1) := Batches(server, t, req, field, ExtraPages(NumberValue(total)));
        if values.Err? then (Err(values.error), t1)
        else (ExtendAll(first, values.value), t1)
  }

  // ---------------------------------------------------------------------------
  // One branch (_get_results_async)

  function IssuesRequest(cfg: Config, key: string, branch: Json): Request {
    var params := map["componentKeys" := Str(key), "ps" := Int(PageSize), "p" := Int(1),
                      "additionalFields" := Str("comments"), "resolved" := Str("false")];
    Request(cfg.url + "/api/issues/search", if Truthy(branch) then params["branch" := branch] else params)
  }

  function HotspotsRequest(cfg: Config, key: string, branch: Json): Request {
    var params := map["projectKey" := Str(key), "ps" := Int(PageSize), "p" := Int(1),
                      "status" := Str("TO_REVIEW")];
    Request(cfg.url + "/api/hotspots/search", if Truthy(branch) then params["branch" := branch] else params)
  }

  /** `f"-{branch.replace('/', '_')}" if branch else ""`. */
  function BranchSuffix(branch: Json): Result<string> {
    if !Truthy(branch) then Ok("")
    else if branch.Str? then Ok("-" + SlashToUnderscore(branch.s))
    else Err(NoAttribute(branch, "replace"))
  }

  function ReportPath(cfg: Config, key: string, suffix: string): string {
    PathJoin(cfg.reportPath, "SQ-" + key + suffix + ".json")
  }

  /** The triple the `except` of `_get_results_async` returns: `(False, None, str(e))`. */
  function Failed(e: Exc): FetchResult {
    FetchResult(false, None, e.message)
  }

  /** A branch outcome as `_get_results_async` shapes it: a path exactly on
      success, and then the one report file written to that path. */
  predicate Shaped(cfg: Config, key: string, branch: Json, res: FetchResult, ws: seq<Write>) {
    (res.success <==> res.path.Some?) &&
    (res.success ==>
       res.message == "Success." && BranchSuffix(branch).Ok? &&
       res.path.value == ReportPath(cfg, key, BranchSuffix(branch).value) &&
       |ws| == 1 && ws[0].path == res.path.value && ws[0].doc.branch == branch) &&
    (!res.success ==> ws == [])
  }

  /** The body of the `try` in `_get_results_async`; `Err` is an exception it catches. */
  function BranchBody(server: Server, t: nat, cfg: Config, key: string, branch: Json)
    : (r: (Result<(FetchResult, seq<Write>)>, nat))
    ensures r.0.Ok? ==> Shaped(cfg, key, branch, r.0.value.0, r.0.value.1)
  {
    var issuesReq := IssuesRequest(cfg, key, branch);
    var initial := Classify(server(t, issuesReq));
    if initial.Err? then (Err(initial.error), t + 1)
    else
      var data := initial.value;
      var first := if Truthy(data) then Get(data, "issues", Arr([])) else Ok(Arr([]));
      if first.Err? then (Err(first.error), t + 1)
      else
        var total := Get(data, "total", Int(0));
        if total.Err? then (Err(total.error), t + 1)
        else
          var (allIssues, t2) := Paginate(server, t + 1, issuesReq, ListField(false), first.value, total.value);
          if allIssues.Err? then (Err(allIssues.error), t2)
          else
            var (issues, t3) := Enrich(server, t2, cfg, allIssues.value, false);
            if issues.Err? then (Err(issues.error), t3)
            else HotspotsStage(server, t3, cfg, key, branch, issues.value)
  }

  /** From the hotspot search on: the second half of the same `try`. */
  function HotspotsStage(server: Server, t: nat, cfg: Config, key: string, branch: Json, issues: seq<Finding>)
    : (r: (Result<(FetchResult, seq<Write>)>, nat))
    ensures r.0.Ok? ==> Shaped(cfg, key, branch, r.0.value.0, r.0.value.1)
  {
    var hsReq := HotspotsRequest(cfg, key, branch);
    var response := Classify(server(t, hsReq));
    if response.Err? then (Err(response.error), t + 1)
    else if !Truthy(response.value) then (Ok((FetchResult(false, None, HotspotsFailed), [])), t + 1)
    else
      var data := response.value;
      var first := Get(data, "hotspots", Arr([]));
      if first.Err? then (Err(first.error), t + 1)
      else
        var paging := Get(data, "paging", Obj(map[]));
        if paging.Err? then (Err(paging.error), t + 1)
        else
          var total := Get(paging.value, "total", Int(0));
          if total.Err? then (Err(total.error), t + 1)
          else
            var (allHotspots, t2) := Paginate(server, t + 1, hsReq, ListField(true), first.value, total.value);
            if allHotspots.Err? then (Err(allHotspots.error), t2)
            else
              var (hotspots, t3) := Enrich(server, t2, cfg, allHotspots.value, true);
              if hotspots.Err? then (Err(hotspots.error), t3)
              else
                (Saved(cfg, key, branch, issues, hotspots.value), t3)
  }

  /** The report of a branch whose findings are all fetched: written to the path
      named after the branch, unless `branch.replace` raises. */
  function Saved(cfg: Config, key: string, branch: Json, issues: seq<Finding>, hotspots: seq<Finding>)
    : (r: Result<(FetchResult, seq<Write>)>)
    ensures r.Ok? ==> Shaped(cfg, key, branch, r.value.0, r.value.1)
  {
    match BranchSuffix(branch)
    case Err(e) => Err(e)
    case Ok(suffix) =>
      var path := ReportPath(cfg, key, suffix);
      Ok((FetchResult(true, Some(path), "Success."), [Write(path, Document(branch, issues, hotspots))]))
  }

  /** `_get_results_async(key, branch)`: the result triple, the file written, the calls made. */
  function FetchBranch(server: Server, t: nat, cfg: Config, key: string, branch: Json)
    : (r: (FetchResult, seq<Write>, nat))
    ensures Shaped(cfg, key, branch, r.0, r.1)
  {
    var (r, t1) := BranchBody(server, t, cfg, key, branch);
    match r
    case Ok(out) => (out.0, out.1, t1)
    case Err(e) => (Failed(e), [], t1)
  }

  // ---------------------------------------------------------------------------
  // One project (process_project)

  function BranchesRequest(cfg: Config, key: string): Request {
    Request(cfg.url + "/api/project_branches/list", map["project" := Str(key)])
  }

  /** `[b["name"] for b in branches]`. */
  function BranchNames(items: seq<Json>): Result<seq<Json>>
    decreases |items|
  {
    if items == [] then Ok([])
    else
      var name :- Index(items[0], "name");
      Prepend([name], BranchNames(items[1..]))
  }

  /** The branch loop: paths in branch order; the first failing branch raises
      `Exception(message)` and later branches are not run. */
  function RunBranches(server: Server, t: nat, cfg: Config, key: string, branches: seq<Json>)
    : (Result<seq<string>>, seq<Write>, nat)
    decreases |branches|
  {
    if branches == [] then (Ok([]), [], t)
    else
      var (res, ws, t1) := FetchBranch(server, t, cfg, key, branches[0]);
      if !res.success then (Err(Exc(res.message)), ws, t1)
      else
        var (rest, ws2, t2) := RunBranches(server, t1, cfg, key, branches[1..]);
        (Prepend([res.path.value], rest), ws + ws2, t2)
  }

  /** The paths and writes of the branches already run, put in front of the run of the rest. */
  function ThenBranches(paths: seq<string>, ws: seq<Write>, rest: (Result<seq<string>>, seq<Write>, nat))
    : (Result<seq<string>>, seq<Write>, nat)
  {
    (Prepend(paths, rest.0), ws + rest.1, rest.2)
  }

  lemma RunBranchesStep(server: Server, t: nat, cfg: Config, key: string, branches: seq<Json>, i: nat,
                        paths: seq<string>, ws: seq<Write>)
    requires i < |branches|
    ensures var f := FetchBranch(server, t, cfg, key, branches[i]);
            ThenBranches(paths, ws, RunBranches(server, t, cfg, key, branches[i..]))
              == if !f.0.success then (Err(Exc(f.0.message)), ws + f.1, f.2)
                 else ThenBranches(paths + [f.0.path.value], ws + f.1, RunBranches(server, f.2, cfg, key, branches[i + 1..]))
  {
    assert branches[i..][0] == branches[i] && branches[i..][1..] == branches[i + 1..];
    var f := FetchBranch(server, t, cfg, key, branches[i]);
    var rest := RunBranches(server, f.2, cfg, key, branches[i + 1..]);
    if f.0.success {
      PrependTwice(paths, [f.0.path.value], rest.0);
      assert ws + (f.1 + rest.1) == (ws + f.1) + rest.1;
    }
  }

  /** `process_project`. */
  function Project(server: Server, t: nat, cfg: Config, key: string)
    : (Result<seq<string>>, seq<Write>, nat)
  {
    var response := Classify(server(t, BranchesRequest(cfg, key)));
    var names := (var data :- response;
                  var list :- Get(data, "branches", Arr([]));
                  var items :- Iter(list);
                  BranchNames(items));
    if names.Err? then (Err(names.error), [], t + 1)
    else RunBranches(server, t + 1, cfg, key, names.value)
  }

  // ---------------------------------------------------------------------------
  // All projects (fetch_all)

  function ComponentsRequest(cfg: Config): Request {
    var params := map["qualifiers" := Str("TRK"), "ps" := Int(PageSize), "p" := Int(1)];
    Request(cfg.url + "/api/components/search",
            if cfg.org != "" then params["organization" := Str(cfg.org)] else params)
  }

  /** The keys of the components that match the project pattern, in order. */
  function FilterKeys(cfg: Config, components: seq<Json>): Result<seq<string>>
    decreases |components|
  {
    if components == [] then Ok([])
    else
      var key :- Index(components[0], "key");
      var matched :- Search(cfg.projects, key);
      Prepend(if matched then [key.s] else [], FilterKeys(cfg, components[1..]))
  }

  /** The matching keys of one components page. */
  function PageKeys(cfg: Config, data: Json): Result<seq<string>> {
    var components :- Get(data, "components", Arr([]));
    var items :- Iter(components);
    FilterKeys(cfg, items)
  }

  /** The component pages after the first, fetched one after the other. */
  function MoreKeys(server: Server, t: nat, cfg: Config, pages: seq<int>): (Result<seq<string>>, nat)
    decreases |pages|
  {
    if pages == [] then (Ok([]), t)
    else
      var keys := (var data :- Classify(server(t, WithPage(ComponentsRequest(cfg), pages[0])));
                   PageKeys(cfg, data));
      if keys.Err? then (Err(keys.error), t + 1)
      else
        var (rest, t2) := MoreKeys(server, t + 1, cfg, pages[1..]);
        (Prepend(keys.value, rest), t2)
  }

  /** The page indices the component loop fetches after page 1: `range(2, total // 500 + 2)`. */
  function ComponentPages(div: int): seq<int> {
    Range(2, div + 2)
  }

  function CollectKeys(server: Server, t: nat, cfg: Config): (Result<seq<string>>, nat) {
    var first := (var data :- Classify(server(t, ComponentsRequest(cfg)));
                  var paging :- Get(data, "paging", Obj(map[]));
                  var total :- Get(paging, "total", Int(0));
                  var keys :- PageKeys(cfg, data);
                  var div :- FloorDiv500(total);
                  Ok((keys, div)));
    if first.Err? then (Err(first.error), t + 1)
    else
      var (more, t1) := MoreKeys(server, t + 1, cfg, ComponentPages(first.value.1));
      if more.Err? then (more, t1) else (Ok(first.value.0 + more.value), t1)
  }

  /** `gather(..., return_exceptions=True)` over the projects: every project runs. */
  function RunProjects(server: Server, t: nat, cfg: Config, keys: seq<string>)
    : (seq<Result<seq<string>>>, seq<Write>, nat)
    decreases |keys|
  {
    if keys == [] then ([], [], t)
    else
      var (r, ws, t1) := Project(server, t, cfg, keys[0]);
      var (rest, ws2, t2) := RunProjects(server, t1, cfg, keys[1..]);
      ([r] + rest, ws + ws2, t2)
  }

  /** The results and writes of the projects already run, put in front of the run of the rest. */
  function Then(results: seq<Result<seq<string>>>, ws: seq<Write>,
                rest: (seq<Result<seq<string>>>, seq<Write>, nat)): (seq<Result<seq<string>>>, seq<Write>, nat) {
    (results + rest.0, ws + rest.1, rest.2)
  }

  lemma RunProjectsStep(server: Server, t: nat, cfg: Config, keys: seq<string>, i: nat,
                        results: seq<Result<seq<string>>>, ws: seq<Write>)
    requires i < |keys|
    ensures var p := Project(server, t, cfg, keys[i]);
            Then(results, ws, RunProjects(server, t, cfg, keys[i..]))
              == Then(results + [p.0], ws + p.1, RunProjects(server, p.2, cfg, keys[i + 1..]))
  {
    assert keys[i..][0] == keys[i] && keys[i..][1..] == keys[i + 1..];
    var p := Project(server, t, cfg, keys[i]);
    var rest := RunProjects(server, p.2, cfg, keys[i + 1..]);
    assert results + ([p.0] + rest.0) == (results + [p.0]) + rest.0;
    assert ws + (p.1 + rest.1) == (ws + p.1) + rest.1;
  }

  /** The first failed project's exception, in key order. */
  function FirstFailure(results: seq<Result<seq<string>>>): Option<Exc>
    decreases |results|
  {
    if results == [] then None
    else if results[0].Err? then Some(results[0].error)
    else FirstFailure(results[1..])
  }

  /** All paths of the projects, concatenated in key order. */
  function AllFiles(results: seq<Result<seq<string>>>): seq<string>
    decreases |results|
  {
    if results == [] then []
    else (if results[0].Ok? then results[0].value else []) + AllFiles(results[1..])
  }

  /** The scan over the project results that `fetch_all` ends with, `files`
      holding the paths of the results already scanned. */
  function Scan(files: seq<string>, results: seq<Result<seq<string>>>): string
    decreases |results|
  {
    if results == [] then "Success! Data saved to " + ReprList(files)
    else if results[0].Err? then "Project processing failed: " + results[0].error.message
    else Scan(files + results[0].value, results[1..])
  }

  /** `fetch_all`. */
  function Extraction(server: Server, t: nat, cfg: Config): (string, seq<Write>, nat) {
    var (keys, t1) := CollectKeys(server, t, cfg);
    if keys.Err? then ("An error occurred: " + keys.error.message, [], t1)
    else if keys.value == [] then (NoProjects, [], t1)
    else
      var (results, ws, t2) := RunProjects(server, t1, cfg, keys.value);
      (Scan([], results), ws, t2)
  }
}
