/** Properties of the synchronous extraction script. */
module SqJobProps {
  import opened PyJson
  import opened Gateway
  import opened SqJobSpec

  // ---------------------------------------------------------------------------
  // One finding

  /** The snippet test is the `try`/`except` around `issue["line"]` and
      `issue["textRange"]["startLine"]`: a finding is eligible exactly when one
      of the two reads succeeds. */
  lemma SnippetEligibility(f: Finding)
    ensures HasSnippet(f) <==>
              Index(Obj(f), "line").Ok? ||
              (Index(Obj(f), "textRange").Ok? && Index(Index(Obj(f), "textRange").value, "startLine").Ok?)
  {
  }

  /** `rule[field] if field in rule else "None"` on a dict rule. */
  lemma RuleTextOfDict(rule: map<string, Json>, field: string)
    ensures RuleText(Obj(rule), field) == Ok(if field in rule then rule[field] else Str("None"))
  {
  }

  /** A hotspot whose `hotspots/show` answer has no `rule` only gains `comments`,
      `[]` when the answer has no `comment` either. */
  lemma HotspotWithoutRule(f: Finding, data: map<string, Json>)
    requires "rule" !in data
    ensures HotspotMerge(f, Obj(data))
            == Ok(f["comments" := if "comment" in data then data["comment"] else Arr([])])
  {
  }

  /** A hotspot whose answer has a dict `rule` gains exactly the four rule texts,
      each `"None"` when the rule lacks it, and `comments`; every other field is kept. */
  lemma HotspotWithRule(f: Finding, data: map<string, Json>, rule: map<string, Json>)
    requires "rule" in data && data["rule"] == Obj(rule)
    ensures HotspotMerge(f, Obj(data)).Ok?
    ensures var g := HotspotMerge(f, Obj(data)).value;
            g.Keys == f.Keys + {"name", "riskDescription", "vulnerabilityDescription", "fixRecommendations", "comments"} &&
            (forall field :: field in {"name", "riskDescription", "vulnerabilityDescription", "fixRecommendations"} ==>
               g[field] == if field in rule then rule[field] else Str("None")) &&
            g["comments"] == (if "comment" in data then data["comment"] else Arr([])) &&
            (forall k :: k in f && k !in {"name", "riskDescription", "vulnerabilityDescription", "fixRecommendations", "comments"} ==>
               g[k] == f[k])
  {
    RuleTextOfDict(rule, "name");
    RuleTextOfDict(rule, "riskDescription");
    RuleTextOfDict(rule, "vulnerabilityDescription");
    RuleTextOfDict(rule, "fixRecommendations");
  }

  /** An issue gains `description`: the rule's `htmlDesc`, or "No Description
      Available." when the rule has none; every other field is kept. */
  lemma IssueDescription(f: Finding, data: map<string, Json>, rule: map<string, Json>)
    requires "rule" in data && data["rule"] == Obj(rule)
    ensures IssueMerge(f, Obj(data))
            == Ok(f["description" := if "htmlDesc" in rule then rule["htmlDesc"] else Str(NoDescription)])
  {
  }

  /** A `rules/show` answer without `rule` raises a KeyError that nothing catches. */
  lemma IssueWithoutRuleRaises(f: Finding, data: map<string, Json>)
    requires "rule" !in data
    ensures IssueMerge(f, Obj(data)).Err?
  {
  }

  /** A source entry whose code is `n` blanks before text that does not start with
      whitespace keeps its line and becomes `n` spaces before the extracted text of
      the whole code. */
  lemma SnippetLineIndent(env: Env, source: map<string, Json>, n: nat, body: string)
    requires "line" in source && "code" in source && source["code"] == Str(Spaces(n) + body)
    requires body == [] || !IsSpace(body[0])
    ensures SnippetLine(env, Obj(source))
            == Some(Obj(map["line" := source["line"], "code" := Str(Spaces(n) + env.getText(Spaces(n) + body))]))
  {
    var code := Spaces(n) + body;
    assert SubscriptAny(Obj(source), Str("line")) == Some(source["line"]);
    assert SubscriptAny(Obj(source), Str("code")) == Some(Str(code));
    LeadingSpaceOfIndented(n, body);
  }

  /** An entry without `line`, or whose `code` is not a string, is dropped. */
  lemma SnippetLineDropped(env: Env, source: map<string, Json>)
    requires "line" !in source || "code" !in source || !source["code"].Str?
    ensures SnippetLine(env, Obj(source)) == None
  {
  }

  /** The entry a source contributes to the snippet: its line, or nothing. */
  function KeptLine(env: Env, source: Json): seq<Json> {
    match SnippetLine(env, source) case None => [] case Some(line) => [line]
  }

  /** The entries a `for source in sources` loop keeps, in order: the reference
      definition, from the front. */
  function Kept(env: Env, sources: seq<Json>): seq<Json> {
    if sources == [] then [] else KeptLine(env, sources[0]) + Kept(env, sources[1..])
  }

  /** The reference keeps the last entry last. */
  lemma {:induction false} KeptLast(env: Env, sources: seq<Json>)
    requires sources != []
    ensures Kept(env, sources) == Kept(env, sources[..|sources| - 1]) + KeptLine(env, sources[|sources| - 1])
    decreases |sources|
  {
    var n := |sources|;
    var init, last := sources[..n - 1], sources[n - 1];
    if n == 1 {
      assert sources[1..] == [] && init == [];
    } else {
      var tail := sources[1..];
      assert tail[..|tail| - 1] == init[1..];
      assert tail[|tail| - 1] == last;
      assert init[0] == sources[0];
      KeptLast(env, tail);
      calc {
        Kept(env, sources);
        KeptLine(env, sources[0]) + Kept(env, tail);
        KeptLine(env, sources[0]) + (Kept(env, init[1..]) + KeptLine(env, last));
        (KeptLine(env, init[0]) + Kept(env, init[1..])) + KeptLine(env, last);
        Kept(env, init) + KeptLine(env, last);
      }
    }
  }

  lemma SnippetLinesLast(env: Env, sources: seq<Json>)
    requires sources != []
    ensures SnippetLines(env, sources)
            == SnippetLines(env, sources[..|sources| - 1]) + KeptLine(env, sources[|sources| - 1])
  {
    var lines := SnippetLines(env, sources[..|sources| - 1]);
    match SnippetLine(env, sources[|sources| - 1])
    case None =>
      assert lines + [] == lines;
    case Some(line) =>
  }

  /** The snippet built step by step is the in-order selection of the kept entries. */
  lemma {:induction false} SnippetLinesAreKept(env: Env, sources: seq<Json>)
    ensures SnippetLines(env, sources) == Kept(env, sources)
    decreases |sources|
  {
    if sources != [] {
      SnippetLinesLast(env, sources);
      SnippetLinesAreKept(env, sources[..|sources| - 1]);
      KeptLast(env, sources);
    }
  }

  /** The snippet step only ever sets `snippet` (even to an empty list, when no
      entry survives); every other field is kept. */
  lemma WithSnippetOnlySetsSnippet(env: Env, f: Finding, data: Json, component: Json)
    ensures var g := WithSnippet(env, f, data, component);
            g.Keys <= f.Keys + {"snippet"} && forall k :: k in f && k != "snippet" ==> g[k] == f[k]
  {
  }

  /** When `data[component]["sources"]` is a list, `snippet` is set to its kept
      entries, however few. */
  lemma WithSnippetOfSources(env: Env, f: Finding, data: map<string, Json>, component: string,
                             entry: map<string, Json>, sources: seq<Json>)
    requires component in data && data[component] == Obj(entry)
    requires "sources" in entry && entry["sources"] == Arr(sources)
    ensures WithSnippet(env, f, Obj(data), Str(component)) == f["snippet" := Arr(Kept(env, sources))]
  {
    SnippetLinesAreKept(env, sources);
  }

  // ---------------------------------------------------------------------------
  // The report name and run's checks

  /** The report of a string branch is `SQ-<key>-<branch>.json` in the report
      directory, with every `/` of the branch turned into `_`; any other branch
      raises at `branch.replace`. */
  lemma ReportNameShape(env: Env, key: Json, branch: Json)
    ensures branch.Str? ==>
              var name := "SQ-" + PyStr(key, env.reprContainer) + "-" + SlashToUnderscore(branch.s) + ".json";
              ReportName(env, key, branch) == Ok(PathJoin(env.reportDir, name)) &&
              '/' !in SlashToUnderscore(branch.s) && |SlashToUnderscore(branch.s)| == |branch.s|
    ensures !branch.Str? ==> ReportName(env, key, branch) == Err(NoAttribute(branch, "replace"))
  {
  }

  /** Different parameter names give different messages. */
  lemma MissingParamInjective(a: string, b: string)
    requires MissingParam(a) == MissingParam(b)
    ensures a == b
  {
    var ma, mb := MissingParam(a), MissingParam(b);
    assert |a| == |b|;
    forall i | 0 <= i < |a|
      ensures a[i] == b[i]
    {
      assert ma[4 + i] == a[i];
      assert mb[4 + i] == b[i];
    }
  }

  /** The key is checked first, then the token, then the URL. */
  lemma MissingOrder(key: Json, token: Json, url: Json)
    ensures !Truthy(key) ==> Missing(key, token, url) == Some("key")
    ensures Truthy(key) && !Truthy(token) ==> Missing(key, token, url) == Some("auth token")
    ensures Truthy(key) && Truthy(token) && !Truthy(url) ==> Missing(key, token, url) == Some("Sonar URL")
    ensures Missing(key, token, url) == None <==> Truthy(key) && Truthy(token) && Truthy(url)
  {
  }

  /** Exactly one trailing slash goes. */
  lemma TrimmedRemovesOneSlash(url: string)
    ensures |url| > 0 && url[|url| - 1] == '/' ==> Trimmed(url) + "/" == url
    ensures !(|url| > 0 && url[|url| - 1] == '/') ==> Trimmed(url) == url
    ensures Trimmed(url + "//") == url + "/"
  {
    assert (url + "//")[..|url| + 1] == url + "/";
  }

  /** Where `rstrip("/")` would remove every trailing slash, the script keeps all
      but one. */
  lemma RStripRemovesAllSlashes(url: string)
    ensures RStripSlashes(url + "//") == RStripSlashes(url)
  {
    var v := url + "/";
    var u := v + "/";
    assert u == url + "//";
    assert u[..|u| - 1] == v;
    assert RStripSlashes(u) == RStripSlashes(v);
    assert v[..|v| - 1] == url;
  }

  // ---------------------------------------------------------------------------
  // Endpoints

  /** `"https://" + rest` has its scheme separator at index 5. */
  lemma HttpsSeparator(rest: string)
    ensures SchemeSeparator("https://" + rest) == Some(5)
  {
    var s := "https://" + rest;
    assert s[5..][..3] == "://";
    assert SchemeSeparator(s[5..]) == Some(0);
    assert s[4..][1..] == s[5..] && s[4..][..3][0] == 's';
    assert SchemeSeparator(s[4..]) == Some(1);
    assert s[3..][1..] == s[4..] && s[3..][..3][0] == 'p';
    assert SchemeSeparator(s[3..]) == Some(2);
    assert s[2..][1..] == s[3..] && s[2..][..3][0] == 't';
    assert SchemeSeparator(s[2..]) == Some(3);
    assert s[1..][1..] == s[2..] && s[1..][..3][0] == 't';
    assert SchemeSeparator(s[1..]) == Some(4);
    assert s[..3][0] == 'h';
  }

  /** `urljoin` of a base with one path segment replaces that segment: the
      endpoints built with it (issues, components, branches) lose the path of
      the Sonar URL, while those built by formatting (hotspots, rules, snippets)
      keep it. */
  lemma JoinReplacesLastSegment(host: string, segment: string, rel: string)
    requires '/' !in host && '/' !in segment
    ensures UrlJoin("https://" + host + "/" + segment, rel) == "https://" + host + "/" + rel
  {
    var base := "https://" + host + "/" + segment;
    assert base == "https://" + (host + "/" + segment);
    HttpsSeparator(host + "/" + segment);
    var rest := host + "/" + segment;
    assert base[8..] == rest;
    assert rest[|host|] == '/';
    var r := ThroughLastSlash(rest);
    assert r == host + "/" by { assert rest[..|host| + 1] == host + "/"; }
  }

  /** A base without a path gets `/rel`. */
  lemma JoinHostOnly(host: string, rel: string)
    requires '/' !in host
    ensures UrlJoin("https://" + host, rel) == "https://" + host + "/" + rel
  {
    HttpsSeparator(host);
    assert ("https://" + host)[8..] == host;
  }

  /** The issues endpoint drops the last path segment of the Sonar URL; the
      hotspots endpoint keeps it. */
  lemma IssuesAndHotspotsEndpoints(host: string, segment: string, key: Json, branch: Json)
    requires '/' !in host && '/' !in segment
    ensures IssuesSearch("https://" + host + "/" + segment, key, branch).api == "https://" + host + "/" + "api/issues/search"
    ensures HotspotsSearch("https://" + host + "/" + segment, key, branch).api
            == "https://" + host + "/" + segment + "/api/hotspots/search"
  {
    JoinReplacesLastSegment(host, segment, "api/issues/search");
  }

  // ---------------------------------------------------------------------------
  // The report text

  /** Findings, each dumped and followed by ", ". */
  function Dumped(env: Env, fs: seq<Finding>): string {
    if fs == [] then "" else env.dumps(fs[0]) + ", " + Dumped(env, fs[1..])
  }

  /** Findings dumped and separated by ", ": the text of a JSON list's items. */
  function Joined(env: Env, fs: seq<Finding>): string {
    if fs == [] then ""
    else if |fs| == 1 then env.dumps(fs[0])
    else env.dumps(fs[0]) + ", " + Joined(env, fs[1..])
  }

  /** The findings of `items` in order, enriched one after the other: the
      reference for what `_build_issues_string` adds to the text. */
  ghost function EnrichAll(server: Server, t: nat, env: Env, url: string, items: seq<Json>, hotspot: bool)
    : Result<(seq<Finding>, nat)>
    requires Patient(server)
    decreases |items|
  {
    if items == [] then Ok(([], t))
    else
      var e :- Enrich(server, t, env, url, items[0], hotspot);
      var rest :- EnrichAll(server, e.1, env, url, items[1..], hotspot);
      Ok(([e.0] + rest.0, rest.1))
  }

  lemma {:induction false} DumpedAppend(env: Env, fs: seq<Finding>, gs: seq<Finding>)
    ensures Dumped(env, fs + gs) == Dumped(env, fs) + Dumped(env, gs)
    decreases |fs|
  {
    if fs != [] {
      assert (fs + gs)[0] == fs[0];
      assert (fs + gs)[1..] == fs[1..] + gs;
      DumpedAppend(env, fs[1..], gs);
    } else {
      assert fs + gs == gs;
    }
  }

  /** A nonempty run of dumped findings is their joined text and one trailing ", ". */
  lemma {:induction false} DumpedIsJoined(env: Env, fs: seq<Finding>)
    requires fs != []
    ensures Dumped(env, fs) == Joined(env, fs) + ", "
    decreases |fs|
  {
    if |fs| == 1 {
      assert fs[1..] == [];
    } else {
      DumpedIsJoined(env, fs[1..]);
    }
  }

  /** `results[:-2]` after a nonempty run of findings removes exactly the last
      separator, leaving a well-formed item list. */
  lemma TrimDumped(env: Env, pre: string, fs: seq<Finding>)
    requires fs != []
    ensures DropLast2(pre + Dumped(env, fs)) == pre + Joined(env, fs)
  {
    DumpedIsJoined(env, fs);
    assert pre + Dumped(env, fs) == (pre + Joined(env, fs)) + ", ";
  }

  /** One step of `_build_issues_string`, and of its reference. */
  lemma EnrichFirst(server: Server, t: nat, env: Env, url: string, results: string, items: seq<Json>,
                    hotspot: bool)
    requires Patient(server) && items != []
    ensures var e := Enrich(server, t, env, url, items[0], hotspot);
            var b, all := BuildAll(server, t, env, url, results, items, hotspot),
                          EnrichAll(server, t, env, url, items, hotspot);
            (e.Err? ==> b.Err? && all.Err?) &&
            (e.Ok? ==>
               var rest := EnrichAll(server, e.value.1, env, url, items[1..], hotspot);
               b == BuildAll(server, e.value.1, env, url, results + env.dumps(e.value.0) + ", ", items[1..], hotspot) &&
               (rest.Err? ==> all.Err?) &&
               (rest.Ok? ==> all == Ok(([e.value.0] + rest.value.0, rest.value.1))))
  {
  }

  /** `_build_issues_string` appends to the text exactly the enriched findings in
      their listing order, each followed by ", ", and fails exactly when one of
      them cannot be enriched. */
  lemma {:induction false} BuildAllIsDumped(server: Server, t: nat, env: Env, url: string, results: string,
                                            items: seq<Json>, hotspot: bool)
    requires Patient(server)
    ensures var b, e := BuildAll(server, t, env, url, results, items, hotspot),
                        EnrichAll(server, t, env, url, items, hotspot);
            (b.Ok? <==> e.Ok?) &&
            (b.Ok? ==> |e.value.0| == |items| && b.value == (results + Dumped(env, e.value.0), e.value.1))
    decreases |items|
  {
    if items == [] {
      assert results + Dumped(env, []) == results;
    } else {
      EnrichFirst(server, t, env, url, results, items, hotspot);
      var e := Enrich(server, t, env, url, items[0], hotspot);
      if e.Ok? {
        var text := results + env.dumps(e.value.0) + ", ";
        BuildAllIsDumped(server, e.value.1, env, url, text, items[1..], hotspot);
        var rest := EnrichAll(server, e.value.1, env, url, items[1..], hotspot);
        if rest.Ok? {
          var fs := [e.value.0] + rest.value.0;
          assert fs[0] == e.value.0 && fs[1..] == rest.value.0;
          assert text + Dumped(env, rest.value.0) == results + Dumped(env, fs);
        }
      }
    }
  }

  /** Text that is `results` followed by some findings, each dumped and followed by ", ". */
  ghost predicate Extends(env: Env, results: string, text: string) {
    exists fs: seq<Finding> :: text == results + Dumped(env, fs)
  }

  lemma ExtendsTrans(env: Env, a: string, b: string, c: string)
    requires Extends(env, a, b) && Extends(env, b, c)
    ensures Extends(env, a, c)
  {
    var fs :| b == a + Dumped(env, fs);
    var gs :| c == b + Dumped(env, gs);
    DumpedAppend(env, fs, gs);
    assert c == a + Dumped(env, fs + gs);
  }

  lemma BuildTextExtends(server: Server, t: nat, env: Env, url: string, issues: Json, results: string,
                         hotspot: bool)
    requires Patient(server)
    requires BuildText(server, t, env, url, issues, results, hotspot).Ok?
    ensures Extends(env, results, BuildText(server, t, env, url, issues, results, hotspot).value.0)
  {
    var items := Iter(issues).value;
    BuildAllIsDumped(server, t, env, url, results, items, hotspot);
    var fs := EnrichAll(server, t, env, url, items, hotspot).value.0;
    assert BuildText(server, t, env, url, issues, results, hotspot).value.0 == results + Dumped(env, fs);
  }

  /** The later pages only ever append findings to the text. */
  lemma {:induction false} PageLoopExtends(server: Server, t: nat, env: Env, url: string, req: Request, p: int,
                                           results: string, hotspot: bool)
    requires Patient(server)
    requires PageLoop(server, t, env, url, req, p, results, hotspot).Ok?
    requires PageLoop(server, t, env, url, req, p, results, hotspot).value.Go?
    ensures Extends(env, results, PageLoop(server, t, env, url, req, p, results, hotspot).value.results)
    decreases LastPage - p
  {
    if p >= LastPage {
      assert results == results + Dumped(env, []);
    } else {
      var turn := PageTurn(server, t, env, url, req, p, results, hotspot).value;
      match turn
      case Halt(stage) =>
        assert results == results + Dumped(env, []);
      case Next(text, calls) =>
        var answer := SqApi(server(t, WithPage(req, p + 1))).value;
        var page := if hotspot then Index(answer.1, "hotspots").value else Get(answer.1, "issues", Arr([])).value;
        BuildTextExtends(server, t + 1, env, url, page, results, hotspot);
        PageLoopExtends(server, calls, env, url, req, p + 1, text, hotspot);
        ExtendsTrans(env, results, text, PageLoop(server, calls, env, url, req, p + 1, text, hotspot).value.results);
    }
  }

  /** From page 20 on no further page is requested. */
  lemma PageLoopAtLastPage(server: Server, t: nat, env: Env, url: string, req: Request, p: int,
                           results: string, hotspot: bool)
    requires Patient(server) && p >= LastPage
    ensures PageLoop(server, t, env, url, req, p, results, hotspot) == Ok(Go(results, t))
  {
  }

  /** An empty page ends the loop after that one request, with the text unchanged. */
  lemma PageLoopEmptyPage(server: Server, t: nat, env: Env, url: string, req: Request, p: int,
                          results: string, hotspot: bool, body: Json)
    requires Patient(server) && p < LastPage
    requires server(t, WithPage(req, p + 1)) == Response(200, body)
    requires body.Obj? && (if hotspot then "hotspots" in body.fields && !Truthy(body.fields["hotspots"])
                           else "issues" !in body.fields || !Truthy(body.fields["issues"]))
    ensures PageLoop(server, t, env, url, req, p, results, hotspot) == Ok(Go(results, t + 1))
  {
  }

  // ---------------------------------------------------------------------------
  // The sections of _get_results

  /** The issues list: `"issues": [], ` for a zero total, otherwise the opening
      bracket, the findings of every page read and `], `, with the last
      separator cut (by `TrimDumped`, the items joined when there are any). */
  lemma IssuesListShape(server: Server, t: nat, env: Env, url: string, req: Request, total: Json,
                        issues: Json, head: string)
    requires Patient(server)
    requires IssuesList(server, t, env, url, req, total, issues, head).Ok?
    requires IssuesList(server, t, env, url, req, total, issues, head).value.Go?
    ensures var text := IssuesList(server, t, env, url, req, total, issues, head).value.results;
            (EqualsZero(total) ==> text == head + "\"issues\": [], ") &&
            (!EqualsZero(total) ==>
               exists fs: seq<Finding> :: text == DropLast2(head + "\"issues\": [" + Dumped(env, fs)) + "], ")
  {
    if !EqualsZero(total) {
      var open := head + "\"issues\": [";
      BuildTextExtends(server, t, env, url, issues, open, false);
      var built := BuildText(server, t, env, url, issues, open, false).value;
      if Greater(total, PageSize).value {
        PageLoopExtends(server, built.1, env, url, req, 1, built.0, false);
        ExtendsTrans(env, open, built.0, PageLoop(server, built.1, env, url, req, 1, built.0, false).value.results);
      }
    }
  }

  /** Later issue pages are read only when the total exceeds 500. */
  lemma IssuesPagingThreshold(server: Server, t: nat, env: Env, url: string, req: Request, total: Json,
                              issues: Json, head: string, text: string, calls: nat)
    requires Patient(server) && IsNumber(total) && NumberValue(total) != 0
    requires BuildText(server, t, env, url, issues, head + "\"issues\": [", false) == Ok((text, calls))
    ensures NumberValue(total) <= PageSize ==>
              IssuesList(server, t, env, url, req, total, issues, head) == Ok(Go(DropLast2(text) + "], ", calls))
    ensures var later := PageLoop(server, calls, env, url, req, 1, text, false);
            NumberValue(total) > PageSize && later.Ok? && later.value.Go? ==>
              IssuesList(server, t, env, url, req, total, issues, head)
              == Ok(Go(DropLast2(later.value.results) + "], ", later.value.t))
  {
  }

  /** The hotspots list closes the text: `}` in place of the last separator for a
      zero total, the text unclosed for a negative total, otherwise the findings
      of every page read and `]}`. */
  lemma HotspotsListShape(server: Server, t: nat, env: Env, url: string, req: Request, total: Json,
                          hotspots: Json, results: string)
    requires Patient(server)
    requires HotspotsList(server, t, env, url, req, total, hotspots, results).Ok?
    requires HotspotsList(server, t, env, url, req, total, hotspots, results).value.Go?
    ensures var text := HotspotsList(server, t, env, url, req, total, hotspots, results).value.results;
            (EqualsZero(total) ==> text == DropLast2(results) + "}") &&
            (IsNumber(total) && NumberValue(total) < 0 ==> text == results) &&
            (IsNumber(total) && NumberValue(total) > 0 ==>
               exists fs: seq<Finding> :: text == DropLast2(results + "\"hotspots\": [" + Dumped(env, fs)) + "]}")
  {
    if IsNumber(total) && NumberValue(total) > 0 {
      var open := results + "\"hotspots\": [";
      var list := Index(hotspots, "hotspots").value;
      BuildTextExtends(server, t, env, url, list, open, true);
      var built := BuildText(server, t, env, url, list, open, true).value;
      if NumberValue(total) >= PageSize {
        PageLoopExtends(server, built.1, env, url, req, 1, built.0, true);
        ExtendsTrans(env, open, built.0, PageLoop(server, built.1, env, url, req, 1, built.0, true).value.results);
      }
    }
  }

  /** Later hotspot pages are read from a total of 500 on (one less than for issues). */
  lemma HotspotsPagingThreshold(server: Server, t: nat, env: Env, url: string, req: Request, total: Json,
                                hotspots: map<string, Json>, list: Json, text: string, calls: nat,
                                results: string)
    requires Patient(server) && IsNumber(total) && NumberValue(total) > 0
    requires "hotspots" in hotspots && hotspots["hotspots"] == list
    requires BuildText(server, t, env, url, list, results + "\"hotspots\": [", true) == Ok((text, calls))
    ensures NumberValue(total) < PageSize ==>
              HotspotsList(server, t, env, url, req, total, Obj(hotspots), results) == Ok(Go(DropLast2(text) + "]}", calls))
    ensures var later := PageLoop(server, calls, env, url, req, 1, text, true);
            NumberValue(total) >= PageSize && later.Ok? && later.value.Go? ==>
              HotspotsList(server, t, env, url, req, total, Obj(hotspots), results)
              == Ok(Go(DropLast2(later.value.results) + "]}", later.value.t))
  {
  }

  /** A hotspot listing with `errors` stops the run: with the privileges message
      when the first error says "Insufficient privileges", with the first error's
      `msg` verbatim otherwise, and with the unspecified-error message when that
      `msg` cannot be read. */
  lemma HotspotErrorsMessage(hotspots: Json)
    ensures var o := HotspotErrors(hotspots);
            ErrorsMessage(hotspots).Err? ==> o.message == Str(UnspecifiedError)
    ensures var o := HotspotErrors(hotspots);
            ErrorsMessage(hotspots) == Ok(Str(InsufficientPrivileges)) ==> o.message == Str(PrivilegesMessage)
    ensures var o, m := HotspotErrors(hotspots), ErrorsMessage(hotspots);
            m.Ok? && m.value != Str(InsufficientPrivileges) ==> o.message == m.value
  {
  }

  /** A branch that is not a string is never reported: `_get_results` either
      raises or returns a failure, and writes nothing. */
  lemma NonStringBranchNeverSucceeds(server: Server, t: nat, env: Env, url: string, key: Json, branch: Json)
    requires Patient(server) && !branch.Str?
    ensures var r := Results(server, t, env, url, key, branch);
            r.Ok? ==> !r.value.0.success && r.value.1 == []
  {
  }

  /** `run` writes at most one file and reports its path; a missing parameter is
      reported before any call is made. */
  lemma RunReportsItsFile(server: Server, t: nat, env: Env, key: Json, token: Json, url: Json, branch: Json)
    requires Patient(server)
    ensures var r := RunOutcome(server, t, env, key, token, url, branch);
            r.Ok? ==> |r.value.1| <= 1 &&
                      (|r.value.1| == 1 ==> r.value.0 == Str("Success! Data written to " + r.value.1[0].path))
    ensures Missing(key, token, url).Some? ==>
              RunOutcome(server, t, env, key, token, url, branch)
              == Ok((Str(MissingParam(Missing(key, token, url).value)), [], t))
  {
    if Missing(key, token, url).None? && url.Str? {
      var res := Results(server, t, env, Trimmed(url.s), key, branch);
      if res.Ok? {
        assert Reported(res.value.0, res.value.1);
      }
    }
  }

  // ---------------------------------------------------------------------------
  // get_all_results

  /** Component `i` of a page has key `k`. */
  predicate KeyAt(items: seq<Json>, i: int, k: Json) {
    0 <= i < |items| && items[i].Obj? && "key" in items[i].fields && items[i].fields["key"] == k
  }

  /** The first page raises exactly when a component has no key or a key that
      is not a string. */
  lemma {:induction false} MatchingKeysDefined(env: Env, items: seq<Json>)
    ensures MatchingKeys(env, items).Ok? <==>
              forall i :: 0 <= i < |items| ==> items[i].Obj? && "key" in items[i].fields && items[i].fields["key"].Str?
    decreases |items|
  {
    if items != [] {
      MatchingKeysDefined(env, items[1..]);
      assert forall i :: 0 < i < |items| ==> items[i] == items[1..][i - 1];
    }
  }

  /** The first page keeps exactly the keys that match `sq_projects`. */
  lemma {:induction false} MatchingKeysExact(env: Env, items: seq<Json>)
    requires MatchingKeys(env, items).Ok?
    ensures forall k :: k in MatchingKeys(env, items).value <==>
              (k.Str? && env.projects(k.s) && exists i :: KeyAt(items, i, k))
    decreases |items|
  {
    if items != [] {
      var key := items[0].fields["key"];
      var rest := MatchingKeys(env, items[1..]).value;
      MatchingKeysExact(env, items[1..]);
      var r := MatchingKeys(env, items).value;
      assert r == (if env.projects(key.s) then [key] else []) + rest;
      assert KeyAt(items, 0, key);
      forall k
        ensures k in r <==> (k.Str? && env.projects(k.s) && exists i :: KeyAt(items, i, k))
      {
        if k in rest {
          var i :| KeyAt(items[1..], i, k);
          assert KeyAt(items, i + 1, k);
        }
        if k.Str? && env.projects(k.s) && exists i :: KeyAt(items, i, k) {
          var i :| KeyAt(items, i, k);
          if i > 0 {
            assert KeyAt(items[1..], i - 1, k);
          }
        }
      }
    }
  }

  /** The first page in two parts keeps the matching keys of the first part and
      then those of the second: the kept keys stay in server order, each
      component once. */
  lemma {:induction false} MatchingKeysSplit(env: Env, a: seq<Json>, b: seq<Json>)
    ensures MatchingKeys(env, a + b)
            == (var ma := MatchingKeys(env, a); if ma.Err? then ma else Prepend(ma.value, MatchingKeys(env, b)))
    decreases |a|
  {
    if a == [] {
      assert a + b == b;
      PrependNothing(MatchingKeys(env, b));
    } else {
      assert (a + b)[0] == a[0] && (a + b)[1..] == a[1..] + b;
      MatchingKeysSplit(env, a[1..], b);
      var rest := MatchingKeys(env, a[1..]);
      if rest.Ok? {
        var key := Index(a[0], "key");
        if key.Ok? && Search(env.projects, key.value).Ok? {
          var kept := if Search(env.projects, key.value).value then [key.value] else [];
          PrependTwice(kept, rest.value, MatchingKeys(env, b));
        }
      }
    }
  }

  /** One component with a string key keeps that key exactly when `sq_projects`
      matches it. */
  lemma MatchingKeysOne(env: Env, c: Json)
    requires c.Obj? && "key" in c.fields && c.fields["key"].Str?
    ensures MatchingKeys(env, [c]) == Ok(if env.projects(c.fields["key"].s) then [c.fields["key"]] else [])
  {
    var kept := if env.projects(c.fields["key"].s) then [c.fields["key"]] else [];
    assert [c][1..] == [];
    assert MatchingKeys(env, [c]) == Prepend(kept, MatchingKeys(env, []));
    assert kept + [] == kept;
  }

  /** A later page keeps every key, in order; it raises when a component has none. */
  lemma {:induction false} AllKeysExact(items: seq<Json>)
    ensures AllKeys(items).Ok? <==> forall i :: 0 <= i < |items| ==> items[i].Obj? && "key" in items[i].fields
    ensures AllKeys(items).Ok? ==>
              |AllKeys(items).value| == |items| &&
              forall i :: 0 <= i < |items| ==> AllKeys(items).value[i] == items[i].fields["key"]
    decreases |items|
  {
    if items != [] {
      AllKeysExact(items[1..]);
      assert forall i :: 0 < i < |items| ==> items[i] == items[1..][i - 1];
    }
  }

  /** The keys collected so far are kept, with those of the later pages after them. */
  lemma {:induction false} LaterKeysGrow(server: Server, t: nat, req: Request, j: nat, stop: nat, keys: seq<Json>)
    requires j <= stop && !MoreAt(server, t, req, stop)
    requires LaterKeys(server, t, req, j, stop, keys).Ok? && LaterKeys(server, t, req, j, stop, keys).value.Listed?
    ensures keys <= LaterKeys(server, t, req, j, stop, keys).value.keys
    decreases stop - j
  {
    var page := LaterPage(server(t + j, WithPage(req, 2 + j))).value;
    if page.More? {
      BeforeEnd(server, t, req, j, stop);
      LaterKeysGrow(server, t, req, j + 1, stop, keys + page.keys);
    }
  }

  /** Which page the listing is known to end at does not matter: the loop stops
      at its first page without components. */
  lemma {:induction false} LaterKeysAnyEnd(server: Server, t: nat, req: Request, j: nat, stop: nat, stop2: nat,
                                           keys: seq<Json>)
    requires j <= stop && !MoreAt(server, t, req, stop)
    requires j <= stop2 && !MoreAt(server, t, req, stop2)
    ensures LaterKeys(server, t, req, j, stop, keys) == LaterKeys(server, t, req, j, stop2, keys)
    decreases stop - j
  {
    var page := LaterPage(server(t + j, WithPage(req, 2 + j)));
    if page.Ok? && page.value.More? {
      BeforeEnd(server, t, req, j, stop);
      BeforeEnd(server, t, req, j, stop2);
      LaterKeysAnyEnd(server, t, req, j + 1, stop, stop2, keys + page.value.keys);
    }
  }

  /** The paths of the files written, in order. */
  function Paths(ws: seq<TextFile>): (ps: seq<string>)
    ensures |ps| == |ws| && forall i :: 0 <= i < |ws| ==> ps[i] == ws[i].path
  {
    seq(|ws|, i requires 0 <= i < |ws| => ws[i].path)
  }

  /** A branch loop that completes has written the first branch's report and then
      completed on the rest. */
  lemma BranchesLoopCompletedStep(server: Server, t: nat, env: Env, url: string, key: Json,
                                  items: seq<Json>, files: seq<string>)
    requires Patient(server) && items != []
    ensures var r := BranchesLoop(server, t, env, url, key, items, files);
            var branch := Index(items[0], "name");
            r.Ok? && r.value.0.Completed? ==>
              branch.Ok? && Results(server, t, env, url, key, branch.value).Ok? &&
              var res := Results(server, t, env, url, key, branch.value).value;
              res.0.success &&
              r == After(res.1, BranchesLoop(server, res.2, env, url, key, items[1..], files + [res.0.path.value]))
  {
  }

  /** Files written before a loop that completes come first in its list. */
  lemma AfterKeepsOrder(files: seq<string>, ws: seq<TextFile>, rest: (Report, seq<TextFile>, nat))
    requires rest.0.Completed? && rest.0.files == files + Paths(ws) + Paths(rest.1)
    ensures var r := After(ws, Ok(rest)); r.value.0.files == files + Paths(r.value.1)
  {
    assert Paths(ws + rest.1) == Paths(ws) + Paths(rest.1);
  }

  /** A successful `_get_results` adds the one file it wrote. */
  lemma OneReport(files: seq<string>, o: Outcome, ws: seq<TextFile>)
    requires Reported(o, ws) && o.success
    ensures files + [o.path.value] == files + Paths(ws)
  {
    assert Paths(ws) == [o.path.value];
  }

  /** A branch loop that completes has added every file it wrote to `file_list`,
      in the order written. */
  lemma {:induction false} BranchesLoopFiles(server: Server, t: nat, env: Env, url: string, key: Json,
                                             items: seq<Json>, files: seq<string>)
    requires Patient(server)
    ensures var r := BranchesLoop(server, t, env, url, key, items, files);
            r.Ok? && r.value.0.Completed? ==> r.value.0.files == files + Paths(r.value.1)
    decreases |items|
  {
    var r := BranchesLoop(server, t, env, url, key, items, files);
    if items == [] {
      assert files + Paths([]) == files;
    } else if r.Ok? && r.value.0.Completed? {
      BranchesLoopCompletedStep(server, t, env, url, key, items, files);
      var branch := Index(items[0], "name").value;
      var res := Results(server, t, env, url, key, branch).value;
      var more := files + [res.0.path.value];
      BranchesLoopFiles(server, res.2, env, url, key, items[1..], more);
      var rest := BranchesLoop(server, res.2, env, url, key, items[1..], more).value;
      OneReport(files, res.0, res.1);
      AfterKeepsOrder(files, res.1, rest);
    }
  }

  lemma ProjectStepFiles(server: Server, t: nat, env: Env, url: string, key: Json, files: seq<string>)
    requires Patient(server)
    ensures var r := ProjectStep(server, t, env, url, key, files);
            r.Ok? && r.value.0.Completed? ==> r.value.0.files == files + Paths(r.value.1)
  {
    match SqApi(server(t, BranchesList(url, key)))
    case Err(_) =>
    case Ok(answer) =>
      var list := Index(answer.1, "branches");
      if list.Ok? && Iter(list.value).Ok? {
        BranchesLoopFiles(server, t + 1, env, url, key, Iter(list.value).value, files);
      }
  }

  /** A project loop that completes has completed the first project and then the rest. */
  lemma ProjectsLoopCompletedStep(server: Server, t: nat, env: Env, url: string, keys: seq<Json>,
                                  files: seq<string>)
    requires Patient(server) && keys != []
    ensures var r := ProjectsLoop(server, t, env, url, keys, files);
            var run := ProjectStep(server, t, env, url, keys[0], files);
            r.Ok? && r.value.0.Completed? ==>
              run.Ok? && run.value.0.Completed? &&
              r == After(run.value.1, ProjectsLoop(server, run.value.2, env, url, keys[1..], run.value.0.files))
  {
  }

  /** The project loop that completes has added every file written, in order. */
  lemma {:induction false} ProjectsLoopFiles(server: Server, t: nat, env: Env, url: string, keys: seq<Json>,
                                             files: seq<string>)
    requires Patient(server)
    ensures var r := ProjectsLoop(server, t, env, url, keys, files);
            r.Ok? && r.value.0.Completed? ==> r.value.0.files == files + Paths(r.value.1)
    decreases |keys|
  {
    var r := ProjectsLoop(server, t, env, url, keys, files);
    if keys == [] {
      assert files + Paths([]) == files;
    } else if r.Ok? && r.value.0.Completed? {
      ProjectsLoopCompletedStep(server, t, env, url, keys, files);
      ProjectStepFiles(server, t, env, url, keys[0], files);
      var run := ProjectStep(server, t, env, url, keys[0], files).value;
      ProjectsLoopFiles(server, run.2, env, url, keys[1..], run.0.files);
      var rest := ProjectsLoop(server, run.2, env, url, keys[1..], run.0.files).value;
      AfterKeepsOrder(files, run.1, rest);
    }
  }

  /** Branch `i` is the first whose `_get_results` fails: the branches before it
      complete, and the loop ends with that failure's message, the files of the
      earlier branches and the call count right after it. */
  ghost predicate BranchHaltsAt(server: Server, t: nat, env: Env, url: string, key: Json, items: seq<Json>,
                                files: seq<string>, i: int, out: (Report, seq<TextFile>, nat))
    requires Patient(server)
  {
    0 <= i < |items| &&
    var pre := BranchesLoop(server, t, env, url, key, items[..i], files);
    var branch := Index(items[i], "name");
    pre.Ok? && pre.value.0.Completed? && branch.Ok? &&
    var res := Results(server, pre.value.2, env, url, key, branch.value);
    res.Ok? && !res.value.0.success && out == (Halted(res.value.0.message), pre.value.1, res.value.2)
  }

  /** A branch loop whose first branch is written goes on with the rest. */
  lemma BranchesLoopFirst(server: Server, t: nat, env: Env, url: string, key: Json, items: seq<Json>,
                          files: seq<string>, branch: Json, res: (Outcome, seq<TextFile>, nat))
    requires Patient(server) && items != [] && Index(items[0], "name") == Ok(branch)
    requires Results(server, t, env, url, key, branch) == Ok(res) && res.0.success
    ensures BranchesLoop(server, t, env, url, key, items, files)
            == After(res.1, BranchesLoop(server, res.2, env, url, key, items[1..], files + [res.0.path.value]))
  {
  }

  /** A halt at branch `j` of the rest is a halt at branch `j + 1` once the first
      branch is written. */
  lemma {:induction false} BranchHaltsShift(server: Server, t: nat, env: Env, url: string, key: Json, items: seq<Json>,
                         files: seq<string>, branch: Json, res: (Outcome, seq<TextFile>, nat),
                         j: int, out: (Report, seq<TextFile>, nat))
    requires Patient(server) && items != [] && Index(items[0], "name") == Ok(branch)
    requires Results(server, t, env, url, key, branch) == Ok(res) && res.0.success
    requires BranchHaltsAt(server, res.2, env, url, key, items[1..], files + [res.0.path.value], j, out)
    ensures BranchHaltsAt(server, t, env, url, key, items, files, j + 1, (out.0, res.1 + out.1, out.2))
  {
    var tail := items[1..];
    var prefix := items[..j + 1];
    assert prefix[0] == items[0] && prefix[1..] == tail[..j];
    assert tail[j] == items[j + 1];
    BranchesLoopFirst(server, t, env, url, key, prefix, files, branch, res);
  }

  /** A branch loop that halts returns the message of the first failing branch at
      once: no branch after it is called or written. */
  lemma {:induction false} BranchesLoopHalts(server: Server, t: nat, env: Env, url: string, key: Json,
                                             items: seq<Json>, files: seq<string>)
    requires Patient(server)
    ensures var r := BranchesLoop(server, t, env, url, key, items, files);
            r.Ok? && r.value.0.Halted? ==> exists i :: BranchHaltsAt(server, t, env, url, key, items, files, i, r.value)
    decreases |items|
  {
    var r := BranchesLoop(server, t, env, url, key, items, files);
    if items != [] && r.Ok? && r.value.0.Halted? {
      var branch := Index(items[0], "name").value;
      var res := Results(server, t, env, url, key, branch).value;
      if !res.0.success {
        assert items[..0] == [];
        assert BranchHaltsAt(server, t, env, url, key, items, files, 0, r.value);
      } else {
        var files' := files + [res.0.path.value];
        BranchesLoopFirst(server, t, env, url, key, items, files, branch, res);
        var inner := BranchesLoop(server, res.2, env, url, key, items[1..], files');
        BranchesLoopHalts(server, res.2, env, url, key, items[1..], files');
        var j :| BranchHaltsAt(server, res.2, env, url, key, items[1..], files', j, inner.value);
        BranchHaltsShift(server, t, env, url, key, items, files, branch, res, j, inner.value);
      }
    }
  }

  /** A project halts either because its branch list cannot be fetched (the
      connection message, after that one call, writing nothing) or because its
      branch loop halts. */
  lemma ProjectStepHalts(server: Server, t: nat, env: Env, url: string, key: Json, files: seq<string>)
    requires Patient(server)
    ensures var run := ProjectStep(server, t, env, url, key, files);
            var reply := SqApi(server(t, BranchesList(url, key)));
            run.Ok? && run.value.0.Halted? ==>
              (reply.Err? ==> run.value == (Halted(Str(ConnectionError)), [], t + 1)) &&
              (reply.Ok? ==>
                 var list := Index(reply.value.1, "branches");
                 list.Ok? && Iter(list.value).Ok? &&
                 run == BranchesLoop(server, t + 1, env, url, key, Iter(list.value).value, files))
  {
  }

  /** A project step `run` halts, and the loop ends with its report, the writes
      `ws` made before it followed by its own, and its call count. */
  predicate Halting(run: Result<(Report, seq<TextFile>, nat)>, ws: seq<TextFile>, out: (Report, seq<TextFile>, nat)) {
    run.Ok? && run.value.0.Halted? && out == (run.value.0, ws + run.value.1, run.value.2)
  }

  /** Writes made earlier still come first. */
  lemma HaltingShift(run: Result<(Report, seq<TextFile>, nat)>, ws: seq<TextFile>, ws': seq<TextFile>,
                     out: (Report, seq<TextFile>, nat))
    requires Halting(run, ws, out)
    ensures Halting(run, ws' + ws, (out.0, ws' + out.1, out.2))
  {
    assert ws' + (ws + run.value.1) == (ws' + ws) + run.value.1;
  }

  /** After a completed run `pre` of earlier projects, project `key` halts. */
  ghost predicate HaltsAfter(server: Server, env: Env, url: string, key: Json,
                             pre: Result<(Report, seq<TextFile>, nat)>, out: (Report, seq<TextFile>, nat))
    requires Patient(server)
  {
    pre.Ok? && pre.value.0.Completed? &&
    Halting(ProjectStep(server, pre.value.2, env, url, key, pre.value.0.files), pre.value.1, out)
  }

  /** Writes made before a halting project are prefixed to the loop's writes. */
  lemma HaltsAfterShift(server: Server, env: Env, url: string, key: Json, ws: seq<TextFile>,
                        pre: Result<(Report, seq<TextFile>, nat)>, out: (Report, seq<TextFile>, nat))
    requires Patient(server) && HaltsAfter(server, env, url, key, pre, out)
    ensures HaltsAfter(server, env, url, key, After(ws, pre), (out.0, ws + out.1, out.2))
  {
    HaltingShift(ProjectStep(server, pre.value.2, env, url, key, pre.value.0.files), pre.value.1, ws, out);
    assert After(ws, pre).value == (pre.value.0, ws + pre.value.1, pre.value.2);
  }

  /** Project `i` is the first to halt: the projects before it complete, and the
      loop ends with its report, the files written up to it and its call count. */
  ghost predicate ProjectHaltsAt(server: Server, t: nat, env: Env, url: string, keys: seq<Json>,
                                 files: seq<string>, i: int, out: (Report, seq<TextFile>, nat))
    requires Patient(server)
  {
    0 <= i < |keys| && HaltsAfter(server, env, url, keys[i], ProjectsLoop(server, t, env, url, keys[..i], files), out)
  }

  /** A project loop whose first project completes goes on with the rest. */
  lemma ProjectsLoopFirst(server: Server, t: nat, env: Env, url: string, keys: seq<Json>,
                          files: seq<string>, run: (Report, seq<TextFile>, nat))
    requires Patient(server) && keys != []
    requires ProjectStep(server, t, env, url, keys[0], files) == Ok(run) && run.0.Completed?
    ensures ProjectsLoop(server, t, env, url, keys, files)
            == After(run.1, ProjectsLoop(server, run.2, env, url, keys[1..], run.0.files))
  {
  }

  /** The first `j + 1` projects run as the first one followed by the next `j`. */
  lemma ProjectsPrefixAfter(server: Server, t: nat, env: Env, url: string, keys: seq<Json>,
                            files: seq<string>, run: (Report, seq<TextFile>, nat), j: nat)
    requires Patient(server) && j + 1 <= |keys|
    requires ProjectStep(server, t, env, url, keys[0], files) == Ok(run) && run.0.Completed?
    ensures ProjectsLoop(server, t, env, url, keys[..j + 1], files)
            == After(run.1, ProjectsLoop(server, run.2, env, url, keys[1..][..j], run.0.files))
  {
    var prefix := keys[..j + 1];
    assert prefix[0] == keys[0] && prefix[1..] == keys[1..][..j];
    ProjectsLoopFirst(server, t, env, url, prefix, files, run);
  }

  /** A halt at project `j` of the rest is a halt at project `j + 1` once the first
      project completes. */
  lemma {:induction false} ProjectHaltsShift(server: Server, t: nat, env: Env, url: string, keys: seq<Json>,
                          files: seq<string>, run: (Report, seq<TextFile>, nat),
                          j: int, out: (Report, seq<TextFile>, nat))
    requires Patient(server) && keys != []
    requires ProjectStep(server, t, env, url, keys[0], files) == Ok(run) && run.0.Completed?
    requires ProjectHaltsAt(server, run.2, env, url, keys[1..], run.0.files, j, out)
    ensures ProjectHaltsAt(server, t, env, url, keys, files, j + 1, (out.0, run.1 + out.1, out.2))
  {
    var tail := keys[1..];
    ProjectsPrefixAfter(server, t, env, url, keys, files, run, j);
    assert keys[j + 1] == tail[j];
    HaltsAfterShift(server, env, url, tail[j], run.1, ProjectsLoop(server, run.2, env, url, tail[..j], run.0.files), out);
  }

  /** A project loop that halts stops at the first project that halts: no later
      project is called or written. */
  lemma {:induction false} ProjectsLoopHalts(server: Server, t: nat, env: Env, url: string, keys: seq<Json>,
                                             files: seq<string>)
    requires Patient(server)
    ensures var r := ProjectsLoop(server, t, env, url, keys, files);
            r.Ok? && r.value.0.Halted? ==> exists i :: ProjectHaltsAt(server, t, env, url, keys, files, i, r.value)
    decreases |keys|
  {
    var r := ProjectsLoop(server, t, env, url, keys, files);
    if keys != [] && r.Ok? && r.value.0.Halted? {
      var run := ProjectStep(server, t, env, url, keys[0], files).value;
      if run.0.Halted? {
        assert keys[..0] == [];
        assert [] + run.1 == run.1;
        assert ProjectHaltsAt(server, t, env, url, keys, files, 0, r.value);
      } else {
        ProjectsLoopFirst(server, t, env, url, keys, files, run);
        var inner := ProjectsLoop(server, run.2, env, url, keys[1..], run.0.files);
        ProjectsLoopHalts(server, run.2, env, url, keys[1..], run.0.files);
        var j :| ProjectHaltsAt(server, run.2, env, url, keys[1..], run.0.files, j, inner.value);
        ProjectHaltsShift(server, t, env, url, keys, files, run, j, inner.value);
      }
    }
  }

  /** `get_all_results` checks the token and then the URL, never a key, before any call. */
  lemma AllResultsChecks(server: Server, t: nat, env: Env, token: Json, url: Json)
    requires Patient(server)
    requires url.Str? ==> ListingEnds(server, t + 1, ComponentsSearch(Trimmed(url.s), env.org))
    ensures !Truthy(token) ==> AllResults(server, t, env, token, url) == Ok((Str(MissingParam("auth token")), [], t))
    ensures Truthy(token) && !Truthy(url) ==>
              AllResults(server, t, env, token, url) == Ok((Str(MissingParam("Sonar URL")), [], t))
  {
  }

  /** Once the keys are listed, `get_all_results` reports a lost connection or an
      empty listing without writing, and otherwise, when every branch of every
      project was written, reports exactly the files written, in order. */
  lemma AllResultsOutcome(server: Server, t: nat, env: Env, token: Json, url: string, listing: Listing)
    requires Patient(server) && ListingEnds(server, t + 1, ComponentsSearch(Trimmed(url), env.org))
    requires Truthy(token) && url != []
    requires KeyListing(server, t, env, Trimmed(url)) == Ok(listing)
    ensures listing.ConnectionLost? ==> AllResults(server, t, env, token, Str(url)) == Ok((Str(ConnectionError), [], listing.t))
    ensures listing.Listed? && listing.keys == [] ==>
              AllResults(server, t, env, token, Str(url)) == Ok((Str(NoProjectsFound), [], listing.t))
    ensures var r := AllResults(server, t, env, token, Str(url));
            listing.Listed? && listing.keys != [] && r.Ok? &&
            ProjectsLoop(server, listing.t, env, Trimmed(url), listing.keys, []).Ok? &&
            ProjectsLoop(server, listing.t, env, Trimmed(url), listing.keys, []).value.0.Completed? ==>
              r.value.0 == Str("Success! Data written to " + ReprList(Paths(r.value.1)))
    ensures listing.Listed? && listing.keys != [] ==>
              var run := ProjectsLoop(server, listing.t, env, Trimmed(url), listing.keys, []);
              run.Ok? && run.value.0.Halted? ==>
                AllResults(server, t, env, token, Str(url)) == Ok((run.value.0.message, run.value.1, run.value.2))
  {
    if listing.Listed? && listing.keys != [] {
      ProjectsLoopFiles(server, listing.t, env, Trimmed(url), listing.keys, []);
      var run := ProjectsLoop(server, listing.t, env, Trimmed(url), listing.keys, []);
      if run.Ok? {
        assert [] + Paths(run.value.1) == Paths(run.value.1);
      }
    }
  }
}
