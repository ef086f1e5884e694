/** The synchronous extraction script as functions of the server oracle and the
    number of calls made before; each returns the calls made so far with its
    result. An exception that the script does not catch is an `Err`: it ends the
    whole run. The retry loops of the script (`while not success`) repeat a call
    until it is answered, so they are modelled under the assumption `Patient`
    that every request is answered eventually; the unbounded listing of
    components is modelled under the assumption `ListingEnds` for the same
    reason. */
module SqJobSpec {
  import opened PyJson
  import opened Gateway

  /** What the script takes from its surroundings: the module globals `sq_org`,
      `sq_projects` (a regular expression, as a predicate on keys) and
      `SCANNED_FILE_DIR`, and three library calls whose output is not modelled:
      `json.dumps` of an enriched finding, `BeautifulSoup(code, "lxml").get_text()`
      and `str()` of a list or dict used as a project key or branch. */
  datatype Env = Env(org: string, projects: string -> bool, reportDir: string,
                     dumps: Finding -> string, getText: string -> string,
                     reprContainer: Json -> string)

  /** The triple `(result, issues_file, error)` of `_get_results`; the error is
      any JSON value when it is the server's own `errors[0].msg`. */
  datatype Outcome = Outcome(success: bool, path: Option<string>, message: Json)

  /** A report file written by `_get_results`. */
  datatype TextFile = TextFile(path: string, text: string)

  /** Where a section of `_get_results` leaves the run: returned from the
      function, or carrying on with the report text built so far. */
  datatype Stage = Stop(outcome: Outcome, t: nat) | Go(results: string, t: nat)

  const PageSize := 500
  const LastPage := 20
  const ConnectionError := "An error occured when connecting to the SonarQube API."
  const UnspecifiedError := "An unspecified error occurred."
  const InsufficientPrivileges := "Insufficient privileges"
  const PrivilegesMessage := "Token has insufficient privileges to list hotspots. This may be because you are using the built-in Administrator user."
  const NoDescription := "No Description Available."
  const NoProjectsFound := "No projects found on the SonarQube server."
  const ConnectionFailure := Outcome(false, None, Str(ConnectionError))

  // ---------------------------------------------------------------------------
  // Calls repeated until they are answered

  /** Some call from number `t` on of `req` would be answered. */
  ghost predicate Eventually(server: Server, t: nat, req: Request) {
    exists k: nat :: k >= t && Answered(server(k, req))
  }

  /** Every request is answered eventually, however often it has failed before. */
  ghost predicate Patient(server: Server) {
    forall t: nat, req: Request :: Eventually(server, t, req)
  }

  /** The first answered call of `req` from number `t` on, given an answered call `k`. */
  function FirstAnswered(server: Server, t: nat, req: Request, k: nat): (r: nat)
    requires t <= k && Answered(server(k, req))
    ensures t <= r <= k && Answered(server(r, req))
    ensures forall j: nat :: t <= j < r ==> !Answered(server(j, req))
    decreases k - t
  {
    if Answered(server(t, req)) then t else FirstAnswered(server, t + 1, req, k)
  }

  /** A `while not success` loop around `sq_api`: the body of the first answered
      call from number `t` on, and the number of calls made by then. */
  ghost function AnsweredCall(server: Server, t: nat, req: Request): (r: (Json, nat))
    requires Patient(server)
    ensures r.1 > t && Answered(server(r.1 - 1, req)) && r.0 == server(r.1 - 1, req).body
    ensures forall j: nat :: t <= j < r.1 - 1 ==> !Answered(server(j, req))
  {
    assert Eventually(server, t, req);
    var k: nat :| k >= t && Answered(server(k, req));
    var first := FirstAnswered(server, t, req, k);
    (server(first, req).body, first + 1)
  }

  // ---------------------------------------------------------------------------
  // One finding (_build_issues_string, loop body)

  function HotspotShow(url: string, key: Json): Request {
    Request(url + "/api/hotspots/show", map["hotspot" := key])
  }

  function RuleShow(url: string, org: string, rule: Json): Request {
    var params := map["key" := rule];
    Request(url + "/api/rules/show", if org != "" then params["organization" := Str(org)] else params)
  }

  function SnippetShow(url: string, key: Json): Request {
    Request(url + "/api/sources/issue_snippets", map["issueKey" := key])
  }

  /** `issue["line"]` or, failing that, `issue["textRange"]["startLine"]` can be read. */
  predicate HasSnippet(f: Finding) {
    "line" in f || ("textRange" in f && f["textRange"].Obj? && "startLine" in f["textRange"].fields)
  }

  /** `rule[field] if field in rule else "None"`. */
  function RuleText(rule: Json, field: string): Result<Json> {
    var present :- Contains(rule, field);
    if present then Index(rule, field) else Ok(Str("None"))
  }

  /** The update of a hotspot from its `hotspots/show` answer: the four rule texts
      when the answer has a rule, and the comments in every case. */
  function HotspotMerge(f: Finding, data: Json): Result<Finding> {
    var hasRule :- Contains(data, "rule");
    var named :- if hasRule then
        var rule :- Index(data, "rule");
        var name :- RuleText(rule, "name");
        var risk :- RuleText(rule, "riskDescription");
        var vulnerability :- RuleText(rule, "vulnerabilityDescription");
        var fix :- RuleText(rule, "fixRecommendations");
        Ok(f["name" := name]["riskDescription" := risk]
            ["vulnerabilityDescription" := vulnerability]["fixRecommendations" := fix])
      else Ok(f);
    var comments :- Get(data, "comment", Arr([]));
    Ok(named["comments" := comments])
  }

  /** The update of an issue from its `rules/show` answer, whose `rule` must be there. */
  function IssueMerge(f: Finding, data: Json): Result<Finding> {
    var rule :- Index(data, "rule");
    var present :- Contains(rule, "htmlDesc");
    var description :- if present then Index(rule, "htmlDesc") else Ok(Str(NoDescription));
    Ok(f["description" := description])
  }

  /** The snippet line built from one source entry; `None` when the guarded block
      raises (no `line`, or a `code` that is not a string). */
  function SnippetLine(env: Env, source: Json): Option<Json> {
    match SubscriptAny(source, Str("line"))
    case None => None
    case Some(line) =>
      match SubscriptAny(source, Str("code"))
      case Some(Str(code)) =>
        Some(Obj(map["line" := line, "code" := Str(Spaces(LeadingSpace(code)) + env.getText(code))]))
      case _ => None
  }

  function SnippetLines(env: Env, sources: seq<Json>): seq<Json> {
    if sources == [] then []
    else
      var lines := SnippetLines(env, sources[..|sources| - 1]);
      match SnippetLine(env, sources[|sources| - 1])
      case None => lines
      case Some(line) => lines + [line]
  }

  lemma SnippetLinesStep(env: Env, sources: seq<Json>, i: nat)
    requires i < |sources|
    ensures SnippetLines(env, sources[..i + 1])
            == SnippetLines(env, sources[..i]) + (match SnippetLine(env, sources[i])
                                                  case None => []
                                                  case Some(line) => [line])
  {
    var prefix := sources[..i + 1];
    assert prefix[..|prefix| - 1] == sources[..i] && prefix[|prefix| - 1] == sources[i];
    if SnippetLine(env, sources[i]).None? {
      assert SnippetLines(env, sources[..i]) + [] == SnippetLines(env, sources[..i]);
    }
  }

  /** The snippet step on the `issue_snippets` answer `data`: `data[component]["sources"]`
      must be iterable, else the finding is left as it was. */
  function WithSnippet(env: Env, f: Finding, data: Json, component: Json): Finding {
    match SubscriptAny(data, component)
    case None => f
    case Some(entry) =>
      match SubscriptAny(entry, Str("sources"))
      case None => f
      case Some(sources) =>
        match Iter(sources)
        case Err(_) => f
        case Ok(items) => f["snippet" := Arr(SnippetLines(env, items))]
  }

  /** One iteration of `_build_issues_string`'s loop: the finding as it is dumped. */
  ghost function Enrich(server: Server, t: nat, env: Env, url: string, issue: Json, hotspot: bool)
    : Result<(Finding, nat)>
    requires Patient(server)
  {
    var key :- Index(issue, "key");
    var component :- Index(issue, "component");
    var described :- if hotspot then
        var answer := AnsweredCall(server, t, HotspotShow(url, key));
        var merged :- HotspotMerge(issue.fields, answer.0);
        Ok((merged, answer.1))
      else
        var rule :- Index(issue, "rule");
        var answer := AnsweredCall(server, t, RuleShow(url, env.org, rule));
        var merged :- IssueMerge(issue.fields, answer.0);
        Ok((merged, answer.1));
    if HasSnippet(issue.fields) then
      var answer := AnsweredCall(server, described.1, SnippetShow(url, key));
      Ok((WithSnippet(env, described.0, answer.0, component), answer.1))
    else
      Ok(described)
  }

  // ---------------------------------------------------------------------------
  // One page of findings (_build_issues_string)

  /** The report text after the findings `items`, each dumped and followed by ", ". */
  ghost function BuildAll(server: Server, t: nat, env: Env, url: string, results: string,
                          items: seq<Json>, hotspot: bool): Result<(string, nat)>
    requires Patient(server)
    decreases |items|
  {
    if items == [] then Ok((results, t))
    else
      var e :- Enrich(server, t, env, url, items[0], hotspot);
      BuildAll(server, e.1, env, url, results + env.dumps(e.0) + ", ", items[1..], hotspot)
  }

  ghost function BuildText(server: Server, t: nat, env: Env, url: string, issues: Json,
                           results: string, hotspot: bool): Result<(string, nat)>
    requires Patient(server)
  {
    var items :- Iter(issues);
    BuildAll(server, t, env, url, results, items, hotspot)
  }

  // ---------------------------------------------------------------------------
  // _get_results

  function IssuesSearch(url: string, key: Json, branch: Json): Request {
    var params := map["componentKeys" := key, "ps" := Int(PageSize), "p" := Int(1),
                      "additionalFields" := Str("comments"), "resolved" := Str("false")];
    Request(UrlJoin(url, "api/issues/search"), if Truthy(branch) then params["branch" := branch] else params)
  }

  function HotspotsSearch(url: string, key: Json, branch: Json): Request {
    var params := map["projectKey" := key, "ps" := Int(PageSize), "p" := Int(1), "status" := Str("TO_REVIEW")];
    Request(url + "/api/hotspots/search", if Truthy(branch) then params["branch" := branch] else params)
  }

  /** What one later page does to the `while params["p"] < 20` loop. */
  datatype Turn = Halt(stage: Stage) | Next(results: string, t: nat)

  /** Page `p + 1` of a listing: a stop when the connection fails, the text so far
      when the page is empty, otherwise the text with its findings. */
  ghost function PageTurn(server: Server, t: nat, env: Env, url: string, req: Request, p: int,
                          results: string, hotspot: bool): (r: Result<Turn>)
    requires Patient(server)
    ensures r.Ok? && r.value.Halt? && r.value.stage.Stop? ==> r.value.stage.outcome == ConnectionFailure
  {
    match SqApi(server(t, WithPage(req, p + 1)))
    case Err(_) => Ok(Halt(Stop(ConnectionFailure, t + 1)))
    case Ok(answer) =>
      var page :- if hotspot then Index(answer.1, "hotspots") else Get(answer.1, "issues", Arr([]));
      if Truthy(page) then
        var built :- BuildText(server, t + 1, env, url, page, results, hotspot);
        Ok(Next(built.0, built.1))
      else
        Ok(Halt(Go(results, t + 1)))
  }

  /** The `while params["p"] < 20` loop from page `p` on: each later page is fetched
      and added, until page 20 or the first page without findings. */
  ghost function PageLoop(server: Server, t: nat, env: Env, url: string, req: Request, p: int,
                          results: string, hotspot: bool): (r: Result<Stage>)
    requires Patient(server)
    ensures r.Ok? && r.value.Stop? ==> r.value.outcome == ConnectionFailure
    decreases LastPage - p
  {
    if p >= LastPage then Ok(Go(results, t))
    else
      var turn :- PageTurn(server, t, env, url, req, p, results, hotspot);
      match turn
      case Halt(stage) => Ok(stage)
      case Next(text, calls) => PageLoop(server, calls, env, url, req, p + 1, text, hotspot)
  }

  /** `'"branch": "{}",'.format(branch)` for a truthy branch. */
  function BranchEntry(env: Env, branch: Json): string {
    if Truthy(branch) then "\"branch\": \"" + PyStr(branch, env.reprContainer) + "\"," else ""
  }

  /** The issues part of `_get_results`: the report text up to and including the issues list. */
  ghost function IssuesSection(server: Server, t: nat, env: Env, url: string, key: Json, branch: Json)
    : (r: Result<Stage>)
    requires Patient(server)
    ensures r.Ok? && r.value.Stop? ==> r.value.outcome == ConnectionFailure
  {
    var req := IssuesSearch(url, key, branch);
    match SqApi(server(t, req))
    case Err(_) => Ok(Stop(ConnectionFailure, t + 1))
    case Ok(answer) =>
      var total :- Get(answer.1, "total", Int(0));
      var issues :- Get(answer.1, "issues", Arr([]));
      IssuesList(server, t + 1, env, url, req, total, issues, "{ " + BranchEntry(env, branch))
  }

  /** The issues list of the report text, from the first page's `total` and `issues` on. */
  ghost function IssuesList(server: Server, t: nat, env: Env, url: string, req: Request, total: Json,
                            issues: Json, head: string): (r: Result<Stage>)
    requires Patient(server)
    ensures r.Ok? && r.value.Stop? ==> r.value.outcome == ConnectionFailure
  {
    if EqualsZero(total) then Ok(Go(head + "\"issues\": [], ", t))
    else
      var built :- BuildText(server, t, env, url, issues, head + "\"issues\": [", false);
      var more :- Greater(total, PageSize);
      var stage :- if more then PageLoop(server, built.1, env, url, req, 1, built.0, false)
                   else Ok(Go(built.0, built.1));
      if stage.Stop? then Ok(stage) else Ok(Go(DropLast2(stage.results) + "], ", stage.t))
  }

  /** The outcome for a hotspot listing that reports errors. */
  function HotspotErrors(hotspots: Json): (o: Outcome)
    ensures !o.success && o.path == None
  {
    var msg := ErrorsMessage(hotspots);
    if msg.Err? then Outcome(false, None, Str(UnspecifiedError))
    else if msg.value == Str(InsufficientPrivileges) then Outcome(false, None, Str(PrivilegesMessage))
    else Outcome(false, None, msg.value)
  }

  /** The hotspots part of `_get_results`, which closes the report text; a negative
      total leaves it unclosed. */
  ghost function HotspotsSection(server: Server, t: nat, env: Env, url: string, key: Json, branch: Json,
                                 results: string): (r: Result<Stage>)
    requires Patient(server)
    ensures r.Ok? && r.value.Stop? ==> !r.value.outcome.success && r.value.outcome.path == None
  {
    var req := HotspotsSearch(url, key, branch);
    match SqApi(server(t, req))
    case Err(_) => Ok(Stop(ConnectionFailure, t + 1))
    case Ok(answer) =>
      var hotspots := answer.1;
      var hasErrors :- Contains(hotspots, "errors");
      if hasErrors then Ok(Stop(HotspotErrors(hotspots), t + 1))
      else
        var paging :- Index(hotspots, "paging");
        var total :- Index(paging, "total");
        HotspotsList(server, t + 1, env, url, req, total, hotspots, results)
  }

  /** The hotspots list of the report text, from the first page's `total` on. */
  ghost function HotspotsList(server: Server, t: nat, env: Env, url: string, req: Request, total: Json,
                              hotspots: Json, results: string): (r: Result<Stage>)
    requires Patient(server)
    ensures r.Ok? && r.value.Stop? ==> r.value.outcome == ConnectionFailure
  {
    if EqualsZero(total) then Ok(Go(DropLast2(results) + "}", t))
    else
      var positive :- Greater(total, 0);
      if !positive then Ok(Go(results, t))
      else
        var list :- Index(hotspots, "hotspots");
        var built :- BuildText(server, t, env, url, list, results + "\"hotspots\": [", true);
        var more :- GreaterEq(total, PageSize);
        var stage :- if more then PageLoop(server, built.1, env, url, req, 1, built.0, true)
                     else Ok(Go(built.0, built.1));
        if stage.Stop? then Ok(stage) else Ok(Go(DropLast2(stage.results) + "]}", stage.t))
  }

  /** The report file name; `branch.replace` raises for a branch that is not a string. */
  function ReportName(env: Env, key: Json, branch: Json): Result<string> {
    if branch.Str? then
      Ok(PathJoin(env.reportDir, "SQ-" + PyStr(key, env.reprContainer) + "-" + SlashToUnderscore(branch.s) + ".json"))
    else Err(NoAttribute(branch, "replace"))
  }

  /** A result triple and the files written with it agree: one file, named by the
      triple, on success; none otherwise. */
  predicate Reported(o: Outcome, files: seq<TextFile>) {
    (o.success <==> o.path.Some?) &&
    (o.success ==> o.message == Str("Success.") && |files| == 1 && files[0].path == o.path.value) &&
    (!o.success ==> files == [])
  }

  /** `_get_results(key, token, url, branch)`. */
  ghost function Results(server: Server, t: nat, env: Env, url: string, key: Json, branch: Json)
    : (r: Result<(Outcome, seq<TextFile>, nat)>)
    requires Patient(server)
    ensures r.Ok? ==> Reported(r.value.0, r.value.1)
  {
    var issues :- IssuesSection(server, t, env, url, key, branch);
    if issues.Stop? then Ok((issues.outcome, [], issues.t))
    else
      var hotspots :- HotspotsSection(server, issues.t, env, url, key, branch, issues.results);
      if hotspots.Stop? then Ok((hotspots.outcome, [], hotspots.t))
      else
        var path :- ReportName(env, key, branch);
        Ok((Outcome(true, Some(path), Str("Success.")), [TextFile(path, hotspots.results)], hotspots.t))
  }

  // ---------------------------------------------------------------------------
  // run

  function MissingParam(param: string): string {
    "The " + param + " parameter is missing"
  }

  /** `url[:-1] if url.endswith("/") else url`: exactly one trailing slash goes. */
  function Trimmed(url: string): string {
    if |url| > 0 && url[|url| - 1] == '/' then url[..|url| - 1] else url
  }

  function TrimSlash(url: Json): Result<string> {
    if url.Str? then Ok(Trimmed(url.s))
    else Err(NoAttribute(url, "endswith"))
  }

  /** The first parameter of `run` that is not truthy, by the name its message gives it. */
  function Missing(key: Json, token: Json, url: Json): Option<string> {
    if !Truthy(key) then Some("key")
    else if !Truthy(token) then Some("auth token")
    else if !Truthy(url) then Some("Sonar URL")
    else None
  }

  /** `run(key, token, url, branch)`: the string it returns, the files written and
      the calls made. The token is only tested for truthiness: it travels with
      every call, which the oracle does not see. */
  ghost function RunOutcome(server: Server, t: nat, env: Env, key: Json, token: Json, url: Json, branch: Json)
    : Result<(Json, seq<TextFile>, nat)>
    requires Patient(server)
  {
    match Missing(key, token, url)
    case Some(param) => Ok((Str(MissingParam(param)), [], t))
    case None => Launched(server, t, env, key, url, branch)
  }

  /** `run` once its parameters are present: the URL loses one trailing slash, then
      `_get_results` runs and its outcome becomes the returned string. */
  ghost function Launched(server: Server, t: nat, env: Env, key: Json, url: Json, branch: Json)
    : Result<(Json, seq<TextFile>, nat)>
    requires Patient(server)
  {
    var base :- TrimSlash(url);
    var res :- Results(server, t, env, base, key, branch);
    Ok((RunReply(res.0), res.1, res.2))
  }

  /** What `run` returns for the outcome of `_get_results`. */
  function RunReply(o: Outcome): Json
    requires o.success ==> o.path.Some?
  {
    if o.success then Str("Success! Data written to " + o.path.value) else o.message
  }

  // ---------------------------------------------------------------------------
  // get_all_results: the project keys

  function ComponentsSearch(url: string, org: string): Request {
    var params := map["qualifiers" := Str("TRK"), "ps" := Int(PageSize), "p" := Int(1)];
    Request(UrlJoin(url, "api/components/search"), if org != "" then params["organization" := Str(org)] else params)
  }

  /** The keys of the first page of components that match `sq_projects`. */
  function MatchingKeys(env: Env, items: seq<Json>): Result<seq<Json>> {
    if items == [] then Ok([])
    else
      var key :- Index(items[0], "key");
      var matched :- Search(env.projects, key);
      Prepend(if matched then [key] else [], MatchingKeys(env, items[1..]))
  }

  /** The keys of a later page of components, unfiltered. */
  function AllKeys(items: seq<Json>): Result<seq<Json>> {
    if items == [] then Ok([])
    else
      var key :- Index(items[0], "key");
      Prepend([key], AllKeys(items[1..]))
  }

  /** A reply on which the `while True` listing goes on: an answer with components. */
  predicate MorePage(reply: Reply) {
    Answered(reply) && reply.body.Obj? && "components" in reply.body.fields
    && Truthy(reply.body.fields["components"])
  }

  /** The listing goes on at its `j`-th later page (page `2 + j`, call `t + j`). */
  predicate MoreAt(server: Server, t: nat, req: Request, j: nat) {
    MorePage(server(t + j, WithPage(req, 2 + j)))
  }

  /** The server's listing of components, from call `t` on, ends. */
  ghost predicate ListingEnds(server: Server, t: nat, req: Request) {
    exists j: nat :: !MoreAt(server, t, req, j)
  }

  /** A later page at which the listing ends. */
  ghost function ListingEnd(server: Server, t: nat, req: Request): (j: nat)
    requires ListingEnds(server, t, req)
    ensures !MoreAt(server, t, req, j)
  {
    var j: nat :| !MoreAt(server, t, req, j);
    j
  }

  datatype Listing = Listed(keys: seq<Json>, t: nat) | ConnectionLost(t: nat)

  /** What one later page of components tells the `while True` loop. */
  datatype Page = Lost | Exhausted | More(keys: seq<Json>)

  function LaterPage(reply: Reply): (r: Result<Page>)
    ensures r.Ok? && r.value.More? ==> MorePage(reply)
    ensures r.Ok? && r.value.Lost? <==> !Answered(reply)
  {
    match SqApi(reply)
    case Err(_) => Ok(Lost)
    case Ok(answer) =>
      var components :- Index(answer.1, "components");
      if !Truthy(components) then Ok(Exhausted)
      else
        var items :- Iter(components);
        var more :- AllKeys(items);
        Ok(More(more))
  }

  /** A page with more components comes before the page at which the listing ends. */
  lemma BeforeEnd(server: Server, t: nat, req: Request, j: nat, stop: nat)
    requires j <= stop && !MoreAt(server, t, req, stop)
    requires var page := LaterPage(server(t + j, WithPage(req, 2 + j))); page.Ok? && page.value.More?
    ensures j < stop
  {
    assert MoreAt(server, t, req, j);
  }

  /** The `while True` loop from its `j`-th later page on, with `keys` collected;
      `stop` is a page at which the listing ends. */
  function LaterKeys(server: Server, t: nat, req: Request, j: nat, stop: nat, keys: seq<Json>)
    : Result<Listing>
    requires j <= stop && !MoreAt(server, t, req, stop)
    decreases stop - j
  {
    var page :- LaterPage(server(t + j, WithPage(req, 2 + j)));
    match page
    case Lost => Ok(ConnectionLost(t + j + 1))
    case Exhausted => Ok(Listed(keys, t + j + 1))
    case More(more) =>
      assert MoreAt(server, t, req, j);
      LaterKeys(server, t, req, j + 1, stop, keys + more)
  }

  /** One later page of the `while True` loop. */
  lemma LaterKeysStep(server: Server, t: nat, req: Request, j: nat, stop: nat, keys: seq<Json>)
    requires j <= stop && !MoreAt(server, t, req, stop)
    ensures var page, r := LaterPage(server(t + j, WithPage(req, 2 + j))), LaterKeys(server, t, req, j, stop, keys);
            (page.Err? ==> r == Err(page.error)) &&
            (page == Ok(Lost) ==> r == Ok(ConnectionLost(t + j + 1))) &&
            (page == Ok(Exhausted) ==> r == Ok(Listed(keys, t + j + 1))) &&
            (page.Ok? && page.value.More? ==>
               j < stop && r == LaterKeys(server, t, req, j + 1, stop, keys + page.value.keys))
  {
    var page := LaterPage(server(t + j, WithPage(req, 2 + j)));
    if page.Ok? && page.value.More? {
      BeforeEnd(server, t, req, j, stop);
    }
  }

  ghost function KeyListing(server: Server, t: nat, env: Env, url: string): Result<Listing>
    requires ListingEnds(server, t + 1, ComponentsSearch(url, env.org))
  {
    var req := ComponentsSearch(url, env.org);
    match SqApi(server(t, req))
    case Err(_) => Ok(ConnectionLost(t + 1))
    case Ok(answer) =>
      var paging :- Index(answer.1, "paging");
      var total :- Index(paging, "total");
      var components :- Index(answer.1, "components");
      var items :- Iter(components);
      var keys :- MatchingKeys(env, items);
      var more :- Greater(total, PageSize);
      if more then LaterKeys(server, t + 1, req, 0, ListingEnd(server, t + 1, req), keys)
      else Ok(Listed(keys, t + 1))
  }

  // ---------------------------------------------------------------------------
  // get_all_results: the branches of every project

  /** The state of `file_list` at the end of the loops: every branch written, or
      the message of the first failure. */
  datatype Report = Completed(files: seq<string>) | Halted(message: Json)

  function BranchesList(url: string, key: Json): Request {
    Request(UrlJoin(url, "api/project_branches/list"), map["project" := key])
  }

  /** Files written earlier, put in front of the outcome of the rest of a loop. */
  function After(ws: seq<TextFile>, rest: Result<(Report, seq<TextFile>, nat)>)
    : Result<(Report, seq<TextFile>, nat)>
  {
    if rest.Err? then rest else Ok((rest.value.0, ws + rest.value.1, rest.value.2))
  }

  lemma AfterNothing(rest: Result<(Report, seq<TextFile>, nat)>)
    ensures After([], rest) == rest
  {
    if rest.Ok? {
      assert [] + rest.value.1 == rest.value.1;
    }
  }

  lemma AfterTwice(ws: seq<TextFile>, more: seq<TextFile>, rest: Result<(Report, seq<TextFile>, nat)>)
    ensures After(ws, After(more, rest)) == After(ws + more, rest)
  {
    if rest.Ok? {
      assert ws + (more + rest.value.1) == (ws + more) + rest.value.1;
    }
  }

  /** The loop over the branches of project `key`, with `files` written before. */
  ghost function BranchesLoop(server: Server, t: nat, env: Env, url: string, key: Json,
                              items: seq<Json>, files: seq<string>): Result<(Report, seq<TextFile>, nat)>
    requires Patient(server)
    decreases |items|
  {
    if items == [] then Ok((Completed(files), [], t))
    else
      var branch :- Index(items[0], "name");
      var res :- Results(server, t, env, url, key, branch);
      if res.0.success then
        After(res.1, BranchesLoop(server, res.2, env, url, key, items[1..], files + [res.0.path.value]))
      else
        Ok((Halted(res.0.message), res.1, res.2))
  }

  /** One iteration of the loop over the project keys: the branches of `key` are
      listed and each is scanned. */
  ghost function ProjectStep(server: Server, t: nat, env: Env, url: string, key: Json,
                             files: seq<string>): Result<(Report, seq<TextFile>, nat)>
    requires Patient(server)
  {
    match SqApi(server(t, BranchesList(url, key)))
    case Err(_) => Ok((Halted(Str(ConnectionError)), [], t + 1))
    case Ok(answer) =>
      var list :- Index(answer.1, "branches");
      var items :- Iter(list);
      BranchesLoop(server, t + 1, env, url, key, items, files)
  }

  /** The loop over the project keys. */
  ghost function ProjectsLoop(server: Server, t: nat, env: Env, url: string, keys: seq<Json>,
                              files: seq<string>): Result<(Report, seq<TextFile>, nat)>
    requires Patient(server)
    decreases |keys|
  {
    if keys == [] then Ok((Completed(files), [], t))
    else
      var run :- ProjectStep(server, t, env, url, keys[0], files);
      if run.0.Halted? then Ok(run)
      else After(run.1, ProjectsLoop(server, run.2, env, url, keys[1..], run.0.files))
  }

  /** The string `get_all_results` returns at the end of its loops. */
  function Summary(report: Report): Json {
    match report
    case Completed(files) => Str("Success! Data written to " + ReprList(files))
    case Halted(message) => message
  }

  /** `get_all_results(token, url)`. */
  ghost function AllResults(server: Server, t: nat, env: Env, token: Json, url: Json)
    : Result<(Json, seq<TextFile>, nat)>
    requires Patient(server)
    requires url.Str? ==> ListingEnds(server, t + 1, ComponentsSearch(Trimmed(url.s), env.org))
  {
    if !Truthy(token) then Ok((Str(MissingParam("auth token")), [], t))
    else if !Truthy(url) then Ok((Str(MissingParam("Sonar URL")), [], t))
    else
      var base :- TrimSlash(url);
      var listing :- KeyListing(server, t, env, base);
      match listing
      case ConnectionLost(t1) => Ok((Str(ConnectionError), [], t1))
      case Listed(keys, t1) =>
        if keys == [] then Ok((Str(NoProjectsFound), [], t1))
        else
          var run :- ProjectsLoop(server, t1, env, base, keys, []);
          Ok((Summary(run.0), run.1, run.2))
  }
}
