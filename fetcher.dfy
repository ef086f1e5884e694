/** `SonarQubeFetcher` (accuknox_sq_sast/sonarqube_fetcher.py) as a class whose
    state is what its run changes: the number of API calls made (the progress
    bar's count, which is also the index of the next call into the server
    oracle) and the report files written. Every method is proved to compute
    what the functions of `FetcherSpec` say, from the state it starts in. */
module Fetcher {
  import opened PyJson
  import opened Gateway
  import opened FetcherSpec

  class SonarQubeFetcher {
    /** The SonarQube server this fetcher talks to. */
    const server: Server
    const config: Config
    const authToken: string
    /** API calls made so far. */
    var calls: nat
    /** Report files written so far, in order. */
    var written: seq<Write>

    /** `__init__`: the URL loses its trailing slashes. */
    constructor (server: Server, sqUrl: string, authToken: string, projects: string -> bool,
                 org: string, reportPath: string)
      ensures this.server == server && this.authToken == authToken
      ensures config == Config(RStripSlashes(sqUrl), org, projects, reportPath)
      ensures calls == 0 && written == []
    {
      this.server := server;
      this.authToken := authToken;
      config := Config(RStripSlashes(sqUrl), org, projects, reportPath);
      calls := 0;
      written := [];
    }

    /** `_async_sq_api`: one call, counted before it is sent. */
    method AsyncSqApi(req: Request) returns (data: Result<Json>)
      modifies this
      ensures calls == old(calls) + 1 && written == old(written)
      ensures data == Classify(server(old(calls), req))
    {
      var reply := server(calls, req);
      calls := calls + 1;
      match reply
      case Raised(e) =>
        data := Err(e);
      case Response(status, body) =>
        if status == 401 {
          data := Ok(Null);
        } else if status != 200 {
          data := Ok(Null);
        } else {
          var hasErrors := Contains(body, "errors");
          if hasErrors.Err? {
            data := Err(hasErrors.error);
          } else if hasErrors.value {
            // the log line reads the first error's message
            var msg := ErrorsMessage(body);
            data := if msg.Err? then Err(msg.error) else Ok(Null);
          } else {
            data := Ok(body);
          }
        }
    }

    /** `_get_issues_batch`. */
    method GetIssuesBatch(req: Request) returns (r: Result<Json>)
      modifies this
      ensures calls == old(calls) + 1 && written == old(written)
      ensures r == Batch(server(old(calls), req), "issues")
    {
      var data := AsyncSqApi(req);
      if data.Err? {
        return Err(data.error);
      }
      r := if Truthy(data.value) then Get(data.value, "issues", Arr([])) else Ok(Arr([]));
    }

    /** `_get_hotspots_batch`. */
    method GetHotspotsBatch(req: Request) returns (r: Result<Json>)
      modifies this
      ensures calls == old(calls) + 1 && written == old(written)
      ensures r == Batch(server(old(calls), req), "hotspots")
    {
      var data := AsyncSqApi(req);
      if data.Err? {
        return Err(data.error);
      }
      r := if Truthy(data.value) then Get(data.value, "hotspots", Arr([])) else Ok(Arr([]));
    }

    /** `_get_issue_details`: up to three attempts; the third failure propagates.
        The five-second pause between attempts is not modelled. */
    method GetIssueDetails(issue: Json, hotspot: bool) returns (r: Result<Finding>)
      modifies this
      ensures written == old(written)
      ensures (r, calls) == Detail(server, old(calls), config, issue, hotspot)
    {
      var request := DetailRequest(config, issue, hotspot);
      if request.Err? {
        return Err(request.error);
      }
      var req := request.value;
      ghost var start := calls;
      for attempt := 0 to MaxRetries
        invariant attempt < MaxRetries
        invariant written == old(written)
        invariant Retry(server, start, req, issue.fields, hotspot, 0)
               == Retry(server, calls, req, issue.fields, hotspot, attempt)
      {
        var data := AsyncSqApi(req);
        var merged := if data.Err? then Err(data.error) else MergeDetail(issue.fields, data.value, hotspot);
        if merged.Ok? || attempt == MaxRetries - 1 {
          return merged;
        }
      }
    }

    /** `_get_snippet`. */
    method GetSnippet(issue: Finding) returns (r: Result<Finding>)
      modifies this
      ensures written == old(written)
      ensures (r, calls) == Snippet(server, old(calls), config, issue)
    {
      if "line" !in issue && "textRange" !in issue {
        return Ok(issue);
      }
      if "key" !in issue {
        return Err(Exc(ReprStr("key")));
      }
      var data := AsyncSqApi(SnippetRequest(config, issue["key"]));
      var sources := SnippetSources(data, Field(issue, "component"));
      var fullSnippet: seq<Json> := [];
      if sources.Some? {
        var items := sources.value;
        for i := 0 to |items|
          invariant fullSnippet == SnippetEntries(items[..i])
        {
          var entry := SnippetEntry(items[i]);
          if entry.Some? {
            fullSnippet := fullSnippet + [entry.value];
          }
          assert items[..i + 1][..i] == items[..i];
        }
        assert items[..|items|] == items;
      }
      r := Ok(if fullSnippet != [] then issue["snippet" := Arr(fullSnippet)] else issue);
    }

    /** `_process_issues`: every detail in order, then every snippet in order. */
    method ProcessIssues(items: Json, hotspot: bool) returns (r: Result<seq<Finding>>)
      modifies this
      ensures written == old(written)
      ensures (r, calls) == Enrich(server, old(calls), config, items, hotspot)
    {
      var list := Iter(items);
      if list.Err? {
        return Err(list.error);
      }
      var details := GatherDetails(list.value, hotspot);
      if details.Err? {
        return Err(details.error);
      }
      r := GatherSnippets(details.value);
    }

    /** The first `gather` of `_process_issues`. */
    method GatherDetails(xs: seq<Json>, hotspot: bool) returns (r: Result<seq<Finding>>)
      modifies this
      ensures written == old(written)
      ensures (r, calls) == DetailsAll(server, old(calls), config, xs, hotspot)
    {
      ghost var start := calls;
      var details: seq<Finding> := [];
      PrependNothing(DetailsAll(server, calls, config, xs, hotspot).0);
      for i := 0 to |xs|
        invariant written == old(written)
        invariant DetailsAll(server, start, config, xs, hotspot)
               == (Prepend(details, DetailsAll(server, calls, config, xs[i..], hotspot).0),
                   DetailsAll(server, calls, config, xs[i..], hotspot).1)
      {
        assert xs[i..][0] == xs[i] && xs[i..][1..] == xs[i + 1..];
        var d := GetIssueDetails(xs[i], hotspot);
        if d.Err? {
          return Err(d.error);
        }
        PrependTwice(details, [d.value], DetailsAll(server, calls, config, xs[i + 1..], hotspot).0);
        details := details + [d.value];
      }
      assert xs[|xs|..] == [] && details + [] == details;
      r := Ok(details);
    }

    /** The second `gather` of `_process_issues`. */
    method GatherSnippets(fs: seq<Finding>) returns (r: Result<seq<Finding>>)
      modifies this
      ensures written == old(written)
      ensures (r, calls) == SnippetsAll(server, old(calls), config, fs)
    {
      ghost var start := calls;
      var out: seq<Finding> := [];
      PrependNothing(SnippetsAll(server, calls, config, fs).0);
      for i := 0 to |fs|
        invariant written == old(written)
        invariant SnippetsAll(server, start, config, fs)
               == (Prepend(out, SnippetsAll(server, calls, config, fs[i..]).0),
                   SnippetsAll(server, calls, config, fs[i..]).1)
      {
        assert fs[i..][0] == fs[i] && fs[i..][1..] == fs[i + 1..];
        var f := GetSnippet(fs[i]);
        if f.Err? {
          return Err(f.error);
        }
        PrependTwice(out, [f.value], SnippetsAll(server, calls, config, fs[i + 1..]).0);
        out := out + [f.value];
      }
      assert fs[|fs|..] == [] && out + [] == out;
      r := Ok(out);
    }

    /** The pagination of `_get_results_async`: when the total is above 500, the
        batches of the further pages, then their items appended to page 1's. */
    method FetchListing(req: Request, hotspot: bool, first: Json, total: Json) returns (r: Result<Json>)
      modifies this
      ensures written == old(written)
      ensures (r, calls) == Paginate(server, old(calls), req, ListField(hotspot), first, total)
    {
      var more := Greater(total, PageSize);
      if more.Err? {
        return Err(more.error);
      }
      if !more.value {
        return Ok(first);
      }
      var values := GatherBatches(req, hotspot, ExtraPages(NumberValue(total)));
      if values.Err? {
        return Err(values.error);
      }
      var acc := first;
      for i := 0 to |values.value|
        invariant ExtendAll(first, values.value) == ExtendAll(acc, values.value[i..])
      {
        assert values.value[i..][0] == values.value[i] && values.value[i..][1..] == values.value[i + 1..];
        var next := Extend(acc, values.value[i]);
        if next.Err? {
          return Err(next.error);
        }
        acc := next.value;
      }
      r := Ok(acc);
    }

    /** `gather` over the batch helper of the listing, one page after the other. */
    method GatherBatches(req: Request, hotspot: bool, pages: seq<int>) returns (r: Result<seq<Json>>)
      modifies this
      ensures written == old(written)
      ensures (r, calls) == Batches(server, old(calls), req, ListField(hotspot), pages)
    {
      ghost var start := calls;
      var values: seq<Json> := [];
      PrependNothing(Batches(server, calls, req, ListField(hotspot), pages).0);
      for i := 0 to |pages|
        invariant written == old(written)
        invariant Batches(server, start, req, ListField(hotspot), pages)
               == (Prepend(values, Batches(server, calls, req, ListField(hotspot), pages[i..]).0),
                   Batches(server, calls, req, ListField(hotspot), pages[i..]).1)
      {
        assert pages[i..][0] == pages[i] && pages[i..][1..] == pages[i + 1..];
        var b;
        if hotspot {
          b := GetHotspotsBatch(WithPage(req, pages[i]));
        } else {
          b := GetIssuesBatch(WithPage(req, pages[i]));
        }
        if b.Err? {
          return Err(b.error);
        }
        PrependTwice(values, [b.value], Batches(server, calls, req, ListField(hotspot), pages[i + 1..]).0);
        values := values + [b.value];
      }
      assert pages[|pages|..] == [] && values + [] == values;
      r := Ok(values);
    }

    /** `_get_results_async(key, branch)`: every exception of the `try` becomes a
        failed result carrying its text; on success one report file is written. */
    method GetResultsAsync(key: string, branch: Json) returns (res: FetchResult)
      modifies this
      ensures (res, written, calls) == (FetchBranch(server, old(calls), config, key, branch).0,
                                        old(written) + FetchBranch(server, old(calls), config, key, branch).1,
                                        FetchBranch(server, old(calls), config, key, branch).2)
    {
      assert written + [] == written;
      var issuesReq := IssuesRequest(config, key, branch);
      var initial := AsyncSqApi(issuesReq);
      if initial.Err? {
        return Failed(initial.error);
      }
      var data := initial.value;
      var first := if Truthy(data) then Get(data, "issues", Arr([])) else Ok(Arr([]));
      if first.Err? {
        return Failed(first.error);
      }
      var total := Get(data, "total", Int(0));
      if total.Err? {
        return Failed(total.error);
      }
      var allIssues := FetchListing(issuesReq, false, first.value, total.value);
      if allIssues.Err? {
        return Failed(allIssues.error);
      }
      var issues := ProcessIssues(allIssues.value, false);
      if issues.Err? {
        return Failed(issues.error);
      }
      res := SaveWithHotspots(key, branch, issues.value);
    }

    /** The second half of the `try` of `_get_results_async`, from the hotspot search on. */
    method SaveWithHotspots(key: string, branch: Json, issues: seq<Finding>) returns (res: FetchResult)
      modifies this
      ensures var (r, t) := HotspotsStage(server, old(calls), config, key, branch, issues);
              calls == t &&
              (r.Ok? ==> res == r.value.0 && written == old(written) + r.value.1) &&
              (r.Err? ==> res == Failed(r.error) && written == old(written))
    {
      assert written + [] == written;
      var hsReq := HotspotsRequest(config, key, branch);
      var response := AsyncSqApi(hsReq);
      if response.Err? {
        return Failed(response.error);
      }
      if !Truthy(response.value) {
        return FetchResult(false, None, HotspotsFailed);
      }
      var data := response.value;
      var first := Get(data, "hotspots", Arr([]));
      if first.Err? {
        return Failed(first.error);
      }
      var paging := Get(data, "paging", Obj(map[]));
      if paging.Err? {
        return Failed(paging.error);
      }
      var total := Get(paging.value, "total", Int(0));
      if total.Err? {
        return Failed(total.error);
      }
      var allHotspots := FetchListing(hsReq, true, first.value, total.value);
      if allHotspots.Err? {
        return Failed(allHotspots.error);
      }
      var hotspots := ProcessIssues(allHotspots.value, true);
      if hotspots.Err? {
        return Failed(hotspots.error);
      }
      var suffix := BranchSuffix(branch);
      if suffix.Err? {
        return Failed(suffix.error);
      }
      var path := ReportPath(config, key, suffix.value);
      written := written + [Write(path, Document(branch, issues, hotspots.value))];
      res := FetchResult(true, Some(path), "Success.");
    }

    /** `process_project`: the branches one after the other; the first failed
        branch raises its message. */
    method ProcessProject(key: string) returns (r: Result<seq<string>>)
      modifies this
      ensures (r, written, calls) == (Project(server, old(calls), config, key).0,
                                      old(written) + Project(server, old(calls), config, key).1,
                                      Project(server, old(calls), config, key).2)
    {
      var response := AsyncSqApi(BranchesRequest(config, key));
      var names := (var data :- response;
                    var list :- Get(data, "branches", Arr([]));
                    var items :- Iter(list);
                    BranchNames(items));
      if names.Err? {
        assert old(written) + [] == old(written);
        return Err(names.error);
      }
      var branches := names.value;
      ghost var start := calls;
      PrependNothing(RunBranches(server, start, config, key, branches).0);
      var results: seq<string> := [];
      for i := 0 to |branches|
        invariant ThenBranches([], old(written), RunBranches(server, start, config, key, branches))
               == ThenBranches(results, written, RunBranches(server, calls, config, key, branches[i..]))
      {
        RunBranchesStep(server, calls, config, key, branches, i, results, written);
        var result := GetResultsAsync(key, branches[i]);
        if !result.success {
          return Err(Exc(result.message));
        }
        results := results + [result.path.value];
      }
      assert branches[|branches|..] == [];
      assert results + [] == results && written + [] == written;
      r := Ok(results);
    }

    /** `fetch_all`: the matching project keys of every components page, then
        every project (each failure kept as its exception), then the summary. */
    method FetchAll() returns (msg: string)
      modifies this
      ensures var (m, ws, t) := Extraction(server, old(calls), config);
              msg == m && written == old(written) + ws && calls == t
    {
      var keys := CollectProjectKeys();
      if keys.Err? {
        return "An error occurred: " + keys.error.message;
      }
      if keys.value == [] {
        return NoProjects;
      }
      var results := ProcessProjects(keys.value);
      var allFiles: seq<string> := [];
      for i := 0 to |results|
        invariant Scan([], results) == Scan(allFiles, results[i..])
      {
        assert results[i..][1..] == results[i + 1..];
        if results[i].Err? {
          return "Project processing failed: " + results[i].error.message;
        }
        allFiles := allFiles + results[i].value;
      }
      msg := "Success! Data saved to " + ReprList(allFiles);
    }

    /** The components listing of `fetch_all`: page 1, then pages 2 to
        `total // 500 + 1`, keeping the keys the project pattern matches. */
    method CollectProjectKeys() returns (r: Result<seq<string>>)
      modifies this
      ensures written == old(written)
      ensures (r, calls) == CollectKeys(server, old(calls), config)
    {
      var req := ComponentsRequest(config);
      var response := AsyncSqApi(req);
      var first := (var data :- response;
                    var paging :- Get(data, "paging", Obj(map[]));
                    var total :- Get(paging, "total", Int(0));
                    var keys :- PageKeys(config, data);
                    var div :- FloorDiv500(total);
                    Ok((keys, div)));
      if first.Err? {
        return Err(first.error);
      }
      var keys := first.value.0;
      var pages := ComponentPages(first.value.1);
      ghost var start := calls;
      for i := 0 to |pages|
        invariant written == old(written)
        invariant (Prepend(first.value.0, MoreKeys(server, start, config, pages).0),
                   MoreKeys(server, start, config, pages).1)
               == (Prepend(keys, MoreKeys(server, calls, config, pages[i..]).0),
                   MoreKeys(server, calls, config, pages[i..]).1)
      {
        assert pages[i..][0] == pages[i] && pages[i..][1..] == pages[i + 1..];
        var page := AsyncSqApi(WithPage(req, pages[i]));
        var components := (var data :- page;
                           var list :- Get(data, "components", Arr([]));
                           Iter(list));
        if components.Err? {
          return Err(components.error);
        }
        var more := AppendMatching(keys, components.value);
        if more.Err? {
          return Err(more.error);
        }
        PrependTwice(keys, more.value[|keys|..], MoreKeys(server, calls, config, pages[i + 1..]).0);
        keys := more.value;
      }
      assert pages[|pages|..] == [] && keys + [] == keys;
      r := Ok(keys);
    }

    /** The loop over a later components page: the key of every component the
        project pattern matches is appended to `keys`, in order. */
    method AppendMatching(keys: seq<string>, components: seq<Json>) returns (r: Result<seq<string>>)
      ensures r == Prepend(keys, FilterKeys(config, components))
    {
      var out := keys;
      PrependNothing(FilterKeys(config, components));
      for j := 0 to |components|
        invariant |keys| <= |out| && out[..|keys|] == keys
        invariant Prepend(keys, FilterKeys(config, components))
               == Prepend(out, FilterKeys(config, components[j..]))
      {
        assert components[j..][0] == components[j] && components[j..][1..] == components[j + 1..];
        var key := Index(components[j], "key");
        if key.Err? {
          return Err(key.error);
        }
        var matched := Search(config.projects, key.value);
        if matched.Err? {
          return Err(matched.error);
        }
        assert FilterKeys(config, components[j..])
            == Prepend(if matched.value then [key.value.s] else [], FilterKeys(config, components[j + 1..]));
        PrependTwice(out, if matched.value then [key.value.s] else [],
                     FilterKeys(config, components[j + 1..]));
        if matched.value {
          out := out + [key.value.s];
        } else {
          assert out + [] == out;
        }
      }
      assert components[|components|..] == [] && out + [] == out;
      r := Ok(out);
    }

    /** `gather(*tasks, return_exceptions=True)` over the projects, in key order. */
    method ProcessProjects(keys: seq<string>) returns (results: seq<Result<seq<string>>>)
      modifies this
      ensures Then([], old(written), RunProjects(server, old(calls), config, keys)) == (results, written, calls)
    {
      ghost var start := calls;
      results := [];
      for i := 0 to |keys|
        invariant Then([], old(written), RunProjects(server, start, config, keys))
               == Then(results, written, RunProjects(server, calls, config, keys[i..]))
      {
        RunProjectsStep(server, calls, config, keys, i, results, written);
        var r := ProcessProject(keys[i]);
        results := results + [r];
      }
      assert keys[|keys|..] == [];
      assert results + [] == results && written + [] == written;
    }
  }
}
