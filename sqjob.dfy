/** The synchronous extraction script, one method per function or loop of the
    source. The calls made so far are threaded through as a number: each method
    takes the number of calls made before it and returns the number made after,
    together with its result, and each is proved equal to its specification
    function in `SqJobSpec`. */
module SqJob {
  import opened PyJson
  import opened Gateway
  import opened SqJobSpec

  /** `while not success: try: code, data = sq_api(...)`: the call is repeated
      until it does not raise. */
  method AwaitAnswer(server: Server, t: nat, req: Request) returns (data: Json, t1: nat)
    requires Patient(server)
    ensures (data, t1) == AnsweredCall(server, t, req)
  {
    ghost var k := AnsweredCall(server, t, req).1 - 1;
    t1 := t;
    data := Null;
    var success := false;
    while !success
      invariant t <= t1 <= k + 1
      invariant !success ==> t1 <= k && forall j: nat :: t <= j < t1 ==> !Answered(server(j, req))
      invariant success ==> (data, t1) == AnsweredCall(server, t, req)
      decreases k + 1 - t1
    {
      var answer := SqApi(server(t1, req));
      t1 := t1 + 1;
      if answer.Ok? {
        success := true;
        data := answer.value.1;
      }
    }
  }

  /** The `for source in sources` loop that builds `fullSnippet`. */
  method BuildSnippet(env: Env, sources: seq<Json>) returns (fullSnippet: seq<Json>)
    ensures fullSnippet == SnippetLines(env, sources)
  {
    fullSnippet := [];
    for i := 0 to |sources|
      invariant fullSnippet == SnippetLines(env, sources[..i])
    {
      SnippetLinesStep(env, sources, i);
      var line := SubscriptAny(sources[i], Str("line"));
      var code := SubscriptAny(sources[i], Str("code"));
      if line.Some? && code.Some? && code.value.Str? {
        var text := code.value.s;
        var spaceCount := |text| - |LStrip(text)|;
        var lineSnippet := Obj(map["line" := line.value, "code" := Str(Spaces(spaceCount) + env.getText(text))]);
        assert SnippetLine(env, sources[i]) == Some(lineSnippet);
        fullSnippet := fullSnippet + [lineSnippet];
      } else {
        assert SnippetLine(env, sources[i]) == None;
        assert fullSnippet + [] == fullSnippet;
      }
    }
    assert sources[..|sources|] == sources;
  }

  /** The hotspot branch of the loop body of `_build_issues_string`. */
  method DescribeHotspot(server: Server, t: nat, url: string, key: Json, f: Finding)
    returns (r: Result<(Finding, nat)>)
    requires Patient(server)
    ensures var answer := AnsweredCall(server, t, HotspotShow(url, key));
            r == (var merged :- HotspotMerge(f, answer.0); Ok((merged, answer.1)))
  {
    var data, t1 := AwaitAnswer(server, t, HotspotShow(url, key));
    var hasRule := Contains(data, "rule");
    if hasRule.Err? { return Err(hasRule.error); }
    var issue := f;
    if hasRule.value {
      var rule := Index(data, "rule");
      if rule.Err? { return Err(rule.error); }
      var name := RuleText(rule.value, "name");
      if name.Err? { return Err(name.error); }
      var risk := RuleText(rule.value, "riskDescription");
      if risk.Err? { return Err(risk.error); }
      var vulnerability := RuleText(rule.value, "vulnerabilityDescription");
      if vulnerability.Err? { return Err(vulnerability.error); }
      var fix := RuleText(rule.value, "fixRecommendations");
      if fix.Err? { return Err(fix.error); }
      issue := issue["name" := name.value];
      issue := issue["riskDescription" := risk.value];
      issue := issue["vulnerabilityDescription" := vulnerability.value];
      issue := issue["fixRecommendations" := fix.value];
    }
    var comments := Get(data, "comment", Arr([]));
    if comments.Err? { return Err(comments.error); }
    issue := issue["comments" := comments.value];
    return Ok((issue, t1));
  }

  /** The issue branch of the loop body of `_build_issues_string`. */
  method DescribeIssue(server: Server, t: nat, env: Env, url: string, issue: Json)
    returns (r: Result<(Finding, nat)>)
    requires Patient(server)
    requires issue.Obj?
    ensures r == (var rule :- Index(issue, "rule");
                  var answer := AnsweredCall(server, t, RuleShow(url, env.org, rule));
                  var merged :- IssueMerge(issue.fields, answer.0);
                  Ok((merged, answer.1)))
  {
    var rule := Index(issue, "rule");
    if rule.Err? { return Err(rule.error); }
    var data, t1 := AwaitAnswer(server, t, RuleShow(url, env.org, rule.value));
    var ruleData := Index(data, "rule");
    if ruleData.Err? { return Err(ruleData.error); }
    var present := Contains(ruleData.value, "htmlDesc");
    if present.Err? { return Err(present.error); }
    var description := if present.value then Index(ruleData.value, "htmlDesc") else Ok(Str(NoDescription));
    if description.Err? { return Err(description.error); }
    return Ok((issue.fields["description" := description.value], t1));
  }

  /** The `if snippet:` block of `_build_issues_string`: fetch the source lines and attach them. */
  method AttachSnippet(server: Server, t: nat, env: Env, url: string, key: Json, f: Finding,
                       component: Json) returns (g: Finding, calls: nat)
    requires Patient(server)
    ensures var answer := AnsweredCall(server, t, SnippetShow(url, key));
            g == WithSnippet(env, f, answer.0, component) && calls == answer.1
  {
    var data;
    data, calls := AwaitAnswer(server, t, SnippetShow(url, key));
    g := f;
    var entry := SubscriptAny(data, component);
    if entry.Some? {
      var sources := SubscriptAny(entry.value, Str("sources"));
      if sources.Some? {
        var items := Iter(sources.value);
        if items.Ok? {
          var fullSnippet := BuildSnippet(env, items.value);
          g := f["snippet" := Arr(fullSnippet)];
        }
      }
    }
  }

  /** The loop body of `_build_issues_string`: the finding as it is dumped. */
  method EnrichFinding(server: Server, t: nat, env: Env, url: string, issue: Json, hotspot: bool)
    returns (r: Result<(Finding, nat)>)
    requires Patient(server)
    ensures r == Enrich(server, t, env, url, issue, hotspot)
  {
    var key := Index(issue, "key");
    if key.Err? { return Err(key.error); }
    var hasSnippet := true;
    var line := Index(issue, "line");
    if line.Err? {
      var textRange := Index(issue, "textRange");
      var start := if textRange.Ok? then Index(textRange.value, "startLine") else textRange;
      if start.Err? {
        hasSnippet := false;
      }
    }
    assert hasSnippet == HasSnippet(issue.fields);
    var component := Index(issue, "component");
    if component.Err? { return Err(component.error); }
    var described;
    if hotspot {
      described := DescribeHotspot(server, t, url, key.value, issue.fields);
    } else {
      described := DescribeIssue(server, t, env, url, issue);
    }
    if described.Err? { return Err(described.error); }
    var f, calls := described.value.0, described.value.1;
    if hasSnippet {
      f, calls := AttachSnippet(server, calls, env, url, key.value, f, component.value);
    }
    return Ok((f, calls));
  }

  /** `_build_issues_string(issues, token, results, url, hotspots)`. */
  method BuildIssuesString(server: Server, t: nat, env: Env, url: string, issues: Json,
                           results: string, hotspot: bool) returns (r: Result<(string, nat)>)
    requires Patient(server)
    ensures r == BuildText(server, t, env, url, issues, results, hotspot)
  {
    var items := Iter(issues);
    if items.Err? { return Err(items.error); }
    var xs := items.value;
    var text, calls := results, t;
    for i := 0 to |xs|
      invariant BuildAll(server, t, env, url, results, xs, hotspot)
                == BuildAll(server, calls, env, url, text, xs[i..], hotspot)
    {
      assert xs[i..][0] == xs[i] && xs[i..][1..] == xs[i + 1..];
      var e := EnrichFinding(server, calls, env, url, xs[i], hotspot);
      if e.Err? { return Err(e.error); }
      text := text + env.dumps(e.value.0);
      text := text + ", ";
      calls := e.value.1;
    }
    assert xs[|xs|..] == [];
    return Ok((text, calls));
  }

  /** One turn of the `while params["p"] < 20` loop: the next page and its findings. */
  method TurnPage(server: Server, t: nat, env: Env, url: string, req: Request, p: int,
                  results: string, hotspot: bool) returns (r: Result<Turn>)
    requires Patient(server)
    ensures r == PageTurn(server, t, env, url, req, p, results, hotspot)
  {
    var answer := SqApi(server(t, WithPage(req, p + 1)));
    if answer.Err? { return Ok(Halt(Stop(ConnectionFailure, t + 1))); }
    var page := if hotspot then Index(answer.value.1, "hotspots") else Get(answer.value.1, "issues", Arr([]));
    if page.Err? { return Err(page.error); }
    if !Truthy(page.value) { return Ok(Halt(Go(results, t + 1))); }
    var built := BuildIssuesString(server, t + 1, env, url, page.value, results, hotspot);
    if built.Err? { return Err(built.error); }
    return Ok(Next(built.value.0, built.value.1));
  }

  /** The `while params["p"] < 20` loop of `_get_results`, from page 1. */
  method FollowPages(server: Server, t: nat, env: Env, url: string, req: Request,
                     results: string, hotspot: bool) returns (r: Result<Stage>)
    requires Patient(server)
    ensures r == PageLoop(server, t, env, url, req, 1, results, hotspot)
  {
    var p := 1;
    var text, calls := results, t;
    while p < LastPage
      invariant 1 <= p <= LastPage
      invariant PageLoop(server, t, env, url, req, 1, results, hotspot)
                == PageLoop(server, calls, env, url, req, p, text, hotspot)
      decreases LastPage - p
    {
      var turn := TurnPage(server, calls, env, url, req, p, text, hotspot);
      if turn.Err? { return Err(turn.error); }
      match turn.value
      case Halt(stage) => return Ok(stage);
      case Next(more, next) =>
        p, text, calls := p + 1, more, next;
    }
    return Ok(Go(text, calls));
  }

  /** Lines 78-137 of `_get_results`: the issues part of the report text. */
  method CollectIssues(server: Server, t: nat, env: Env, url: string, key: Json, branch: Json)
    returns (r: Result<Stage>)
    requires Patient(server)
    ensures r == IssuesSection(server, t, env, url, key, branch)
  {
    var req := IssuesSearch(url, key, branch);
    var answer := SqApi(server(t, req));
    if answer.Err? { return Ok(Stop(ConnectionFailure, t + 1)); }
    var total := Get(answer.value.1, "total", Int(0));
    if total.Err? { return Err(total.error); }
    var issues := Get(answer.value.1, "issues", Arr([]));
    if issues.Err? { return Err(issues.error); }
    var results := "{ ";
    if Truthy(branch) {
      results := results + "\"branch\": \"" + PyStr(branch, env.reprContainer) + "\",";
    }
    assert results == "{ " + BranchEntry(env, branch);
    r := ListIssues(server, t + 1, env, url, req, total.value, issues.value, results);
  }

  /** Lines 91-137 of `_get_results`: the issues list, over as many pages as `total` asks for. */
  method ListIssues(server: Server, t: nat, env: Env, url: string, req: Request, total: Json,
                    issues: Json, head: string) returns (r: Result<Stage>)
    requires Patient(server)
    ensures r == IssuesList(server, t, env, url, req, total, issues, head)
  {
    if EqualsZero(total) {
      return Ok(Go(head + "\"issues\": [], ", t));
    }
    var results := head + "\"issues\": [";
    var built := BuildIssuesString(server, t, env, url, issues, results, false);
    if built.Err? { return Err(built.error); }
    var calls;
    results, calls := built.value.0, built.value.1;
    var more := Greater(total, PageSize);
    if more.Err? { return Err(more.error); }
    if more.value {
      var stage := FollowPages(server, calls, env, url, req, results, false);
      if stage.Err? { return Err(stage.error); }
      if stage.value.Stop? { return Ok(stage.value); }
      results, calls := stage.value.results, stage.value.t;
    }
    results := DropLast2(results);
    results := results + "], ";
    return Ok(Go(results, calls));
  }

  /** Lines 140-199 of `_get_results`: the hotspots part, which closes the report text. */
  method CollectHotspots(server: Server, t: nat, env: Env, url: string, key: Json, branch: Json,
                         results: string) returns (r: Result<Stage>)
    requires Patient(server)
    ensures r == HotspotsSection(server, t, env, url, key, branch, results)
  {
    var req := HotspotsSearch(url, key, branch);
    var answer := SqApi(server(t, req));
    if answer.Err? { return Ok(Stop(ConnectionFailure, t + 1)); }
    var hotspots := answer.value.1;
    var hasErrors := Contains(hotspots, "errors");
    if hasErrors.Err? { return Err(hasErrors.error); }
    if hasErrors.value { return Ok(Stop(HotspotErrors(hotspots), t + 1)); }
    var paging := Index(hotspots, "paging");
    if paging.Err? { return Err(paging.error); }
    var total := Index(paging.value, "total");
    if total.Err? { return Err(total.error); }
    r := ListHotspots(server, t + 1, env, url, req, total.value, hotspots, results);
  }

  /** Lines 162-199 of `_get_results`: the hotspots list, which closes the report text. */
  method ListHotspots(server: Server, t: nat, env: Env, url: string, req: Request, total: Json,
                      hotspots: Json, results: string) returns (r: Result<Stage>)
    requires Patient(server)
    ensures r == HotspotsList(server, t, env, url, req, total, hotspots, results)
  {
    var text := results;
    if EqualsZero(total) {
      text := DropLast2(text);
      text := text + "}";
      return Ok(Go(text, t));
    }
    var positive := Greater(total, 0);
    if positive.Err? { return Err(positive.error); }
    if !positive.value { return Ok(Go(text, t)); }
    text := text + "\"hotspots\": [";
    var list := Index(hotspots, "hotspots");
    if list.Err? { return Err(list.error); }
    var built := BuildIssuesString(server, t, env, url, list.value, text, true);
    if built.Err? { return Err(built.error); }
    var calls;
    text, calls := built.value.0, built.value.1;
    // `total` compared with 0 already, so it compares with 500 as well.
    var more := GreaterEq(total, PageSize).value;
    if more {
      var stage := FollowPages(server, calls, env, url, req, text, true);
      if stage.Err? { return Err(stage.error); }
      if stage.value.Stop? { return Ok(stage.value); }
      text, calls := stage.value.results, stage.value.t;
    }
    text := DropLast2(text);
    text := text + "]}";
    return Ok(Go(text, calls));
  }

  /** `_get_results(key, token, url, branch)`, with the report file it writes. */
  method GetResults(server: Server, t: nat, env: Env, url: string, key: Json, branch: Json)
    returns (r: Result<(Outcome, seq<TextFile>, nat)>)
    requires Patient(server)
    ensures r == Results(server, t, env, url, key, branch)
  {
    var issues := CollectIssues(server, t, env, url, key, branch);
    if issues.Err? { return Err(issues.error); }
    if issues.value.Stop? { return Ok((issues.value.outcome, [], issues.value.t)); }
    var hotspots := CollectHotspots(server, issues.value.t, env, url, key, branch, issues.value.results);
    if hotspots.Err? { return Err(hotspots.error); }
    if hotspots.value.Stop? { return Ok((hotspots.value.outcome, [], hotspots.value.t)); }
    var issuesFile := ReportName(env, key, branch);
    if issuesFile.Err? { return Err(issuesFile.error); }
    return Ok((Outcome(true, Some(issuesFile.value), Str("Success.")),
               [TextFile(issuesFile.value, hotspots.value.results)], hotspots.value.t));
  }

  /** `run(key, token, url, branch)`. */
  method Run(server: Server, t: nat, env: Env, key: Json, token: Json, url: Json, branch: Json)
    returns (r: Result<(Json, seq<TextFile>, nat)>)
    requires Patient(server)
    ensures r == RunOutcome(server, t, env, key, token, url, branch)
  {
    var missing := Missing(key, token, url);
    if missing.Some? { return Ok((Str(MissingParam(missing.value)), [], t)); }
    r := Launch(server, t, env, key, url, branch);
  }

  /** The part of `run` after its parameters are checked. */
  method Launch(server: Server, t: nat, env: Env, key: Json, url: Json, branch: Json)
    returns (r: Result<(Json, seq<TextFile>, nat)>)
    requires Patient(server)
    ensures r == Launched(server, t, env, key, url, branch)
  {
    var sonarUrl := TrimSlash(url);
    if sonarUrl.Err? { return Err(sonarUrl.error); }
    var res := GetResults(server, t, env, sonarUrl.value, key, branch);
    if res.Err? { return Err(res.error); }
    return Ok((RunReply(res.value.0), res.value.1, res.value.2));
  }

  /** The loop over the first page of components: keys that match `sq_projects`. */
  method FirstPageKeys(env: Env, components: seq<Json>) returns (r: Result<seq<Json>>)
    ensures r == MatchingKeys(env, components)
  {
    var keys: seq<Json> := [];
    PrependNothing(MatchingKeys(env, components));
    for i := 0 to |components|
      invariant MatchingKeys(env, components) == Prepend(keys, MatchingKeys(env, components[i..]))
    {
      assert components[i..][0] == components[i] && components[i..][1..] == components[i + 1..];
      var key := Index(components[i], "key");
      if key.Err? { return Err(key.error); }
      var x := Search(env.projects, key.value);
      if x.Err? { return Err(x.error); }
      assert MatchingKeys(env, components[i..])
             == Prepend(if x.value then [key.value] else [], MatchingKeys(env, components[i + 1..]));
      if !x.value {
        PrependNothing(MatchingKeys(env, components[i + 1..]));
        continue;
      }
      PrependTwice(keys, [key.value], MatchingKeys(env, components[i + 1..]));
      keys := keys + [key.value];
    }
    assert components[|components|..] == [] && keys + [] == keys;
    return Ok(keys);
  }

  /** `for component in components: keys.append(component["key"])`. */
  method AppendKeys(keys: seq<Json>, components: seq<Json>) returns (r: Result<seq<Json>>)
    ensures r == Prepend(keys, AllKeys(components))
  {
    var out := keys;
    for i := 0 to |components|
      invariant Prepend(keys, AllKeys(components)) == Prepend(out, AllKeys(components[i..]))
    {
      assert components[i..][0] == components[i] && components[i..][1..] == components[i + 1..];
      var key := Index(components[i], "key");
      if key.Err? { return Err(key.error); }
      PrependTwice(out, [key.value], AllKeys(components[i + 1..]));
      out := out + [key.value];
    }
    assert components[|components|..] == [] && out + [] == out;
    return Ok(out);
  }

  /** One later page of components: its keys, unless the listing stops there. */
  method ReadPage(reply: Reply) returns (r: Result<Page>)
    ensures r == LaterPage(reply)
  {
    var answer := SqApi(reply);
    if answer.Err? { return Ok(Lost); }
    var components := Index(answer.value.1, "components");
    if components.Err? { return Err(components.error); }
    if !Truthy(components.value) { return Ok(Exhausted); }
    var items := Iter(components.value);
    if items.Err? { return Err(items.error); }
    var more := AppendKeys([], items.value);
    if more.Err? { return Err(more.error); }
    PrependNothing(AllKeys(items.value));
    return Ok(More(more.value));
  }

  /** The `while True` loop over the later pages of components: its `j`-th turn
      requests page `2 + j` (`params["p"]` after its increment) as call `t + j`. */
  method FollowListing(server: Server, t: nat, req: Request, keys: seq<Json>) returns (r: Result<Listing>)
    requires ListingEnds(server, t, req)
    ensures r == LaterKeys(server, t, req, 0, ListingEnd(server, t, req), keys)
  {
    ghost var stop := ListingEnd(server, t, req);
    var j: nat := 0;
    var all := keys;
    while true
      invariant j <= stop
      invariant LaterKeys(server, t, req, 0, stop, keys) == LaterKeys(server, t, req, j, stop, all)
      decreases stop - j
    {
      var page := ReadPage(server(t + j, WithPage(req, 2 + j)));
      LaterKeysStep(server, t, req, j, stop, all);
      if page.Err? {
        return Err(page.error);
      }
      match page.value
      case Lost =>
        return Ok(ConnectionLost(t + j + 1));
      case Exhausted =>
        return Ok(Listed(all, t + j + 1));
      case More(more) =>
        all := all + more;
        j := j + 1;
    }
  }

  /** Lines 392-435 of `get_all_results`: the project keys. */
  method ListKeys(server: Server, t: nat, env: Env, url: string) returns (r: Result<Listing>)
    requires ListingEnds(server, t + 1, ComponentsSearch(url, env.org))
    ensures r == KeyListing(server, t, env, url)
  {
    var req := ComponentsSearch(url, env.org);
    var answer := SqApi(server(t, req));
    if answer.Err? { return Ok(ConnectionLost(t + 1)); }
    var response := answer.value.1;
    var paging := Index(response, "paging");
    if paging.Err? { return Err(paging.error); }
    var total := Index(paging.value, "total");
    if total.Err? { return Err(total.error); }
    var components := Index(response, "components");
    if components.Err? { return Err(components.error); }
    var items := Iter(components.value);
    if items.Err? { return Err(items.error); }
    var keys := FirstPageKeys(env, items.value);
    if keys.Err? { return Err(keys.error); }
    var more := Greater(total.value, PageSize);
    if more.Err? { return Err(more.error); }
    if !more.value { return Ok(Listed(keys.value, t + 1)); }
    r := FollowListing(server, t + 1, req, keys.value);
  }

  /** The loop over the branches of one project. */
  method ScanBranches(server: Server, t: nat, env: Env, url: string, key: Json, items: seq<Json>,
                      files: seq<string>) returns (r: Result<(Report, seq<TextFile>, nat)>)
    requires Patient(server)
    ensures r == BranchesLoop(server, t, env, url, key, items, files)
  {
    var fileList, written, calls := files, [], t;
    AfterNothing(BranchesLoop(server, t, env, url, key, items, files));
    for i := 0 to |items|
      invariant BranchesLoop(server, t, env, url, key, items, files)
                == After(written, BranchesLoop(server, calls, env, url, key, items[i..], fileList))
    {
      assert items[i..][0] == items[i] && items[i..][1..] == items[i + 1..];
      var branch := Index(items[i], "name");
      if branch.Err? { return Err(branch.error); }
      var res := GetResults(server, calls, env, url, key, branch.value);
      if res.Err? { return Err(res.error); }
      if !res.value.0.success {
        return Ok((Halted(res.value.0.message), written + res.value.1, res.value.2));
      }
      AfterTwice(written, res.value.1,
                 BranchesLoop(server, res.value.2, env, url, key, items[i + 1..], fileList + [res.value.0.path.value]));
      fileList := fileList + [res.value.0.path.value];
      written := written + res.value.1;
      calls := res.value.2;
    }
    assert items[|items|..] == [] && written + [] == written;
    return Ok((Completed(fileList), written, calls));
  }

  /** The body of the loop over the project keys: the branches of `key`. */
  method ScanProject(server: Server, t: nat, env: Env, url: string, key: Json, files: seq<string>)
    returns (r: Result<(Report, seq<TextFile>, nat)>)
    requires Patient(server)
    ensures r == ProjectStep(server, t, env, url, key, files)
  {
    var answer := SqApi(server(t, BranchesList(url, key)));
    if answer.Err? { return Ok((Halted(Str(ConnectionError)), [], t + 1)); }
    var list := Index(answer.value.1, "branches");
    if list.Err? { return Err(list.error); }
    var items := Iter(list.value);
    if items.Err? { return Err(items.error); }
    r := ScanBranches(server, t + 1, env, url, key, items.value, files);
  }

  /** The loop over the project keys of `get_all_results`. */
  method ScanProjects(server: Server, t: nat, env: Env, url: string, keys: seq<Json>)
    returns (r: Result<(Report, seq<TextFile>, nat)>)
    requires Patient(server)
    ensures r == ProjectsLoop(server, t, env, url, keys, [])
  {
    var fileList, written, calls := [], [], t;
    AfterNothing(ProjectsLoop(server, t, env, url, keys, []));
    for i := 0 to |keys|
      invariant ProjectsLoop(server, t, env, url, keys, [])
                == After(written, ProjectsLoop(server, calls, env, url, keys[i..], fileList))
    {
      assert keys[i..][0] == keys[i] && keys[i..][1..] == keys[i + 1..];
      var run := ScanProject(server, calls, env, url, keys[i], fileList);
      if run.Err? { return Err(run.error); }
      if run.value.0.Halted? {
        return Ok((run.value.0, written + run.value.1, run.value.2));
      }
      AfterTwice(written, run.value.1, ProjectsLoop(server, run.value.2, env, url, keys[i + 1..], run.value.0.files));
      fileList := run.value.0.files;
      written := written + run.value.1;
      calls := run.value.2;
    }
    assert keys[|keys|..] == [] && written + [] == written;
    return Ok((Completed(fileList), written, calls));
  }

  /** `get_all_results(token, url)`. */
  method GetAllResults(server: Server, t: nat, env: Env, token: Json, url: Json)
    returns (r: Result<(Json, seq<TextFile>, nat)>)
    requires Patient(server)
    requires url.Str? ==> ListingEnds(server, t + 1, ComponentsSearch(Trimmed(url.s), env.org))
    ensures r == AllResults(server, t, env, token, url)
  {
    if !Truthy(token) { return Ok((Str(MissingParam("auth token")), [], t)); }
    if !Truthy(url) { return Ok((Str(MissingParam("Sonar URL")), [], t)); }
    var sonarUrl := TrimSlash(url);
    if sonarUrl.Err? { return Err(sonarUrl.error); }
    var listing := ListKeys(server, t, env, sonarUrl.value);
    if listing.Err? { return Err(listing.error); }
    if listing.value.ConnectionLost? { return Ok((Str(ConnectionError), [], listing.value.t)); }
    if listing.value.keys == [] { return Ok((Str(NoProjectsFound), [], listing.value.t)); }
    var run := ScanProjects(server, listing.value.t, env, sonarUrl.value, listing.value.keys);
    if run.Err? { return Err(run.error); }
    return Ok((Summary(run.value.0), run.value.1, run.value.2));
  }
}
