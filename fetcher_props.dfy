/** Properties of the asynchronous extraction (`FetcherSpec`): how many pages
    are fetched, what the retry loop does, which fields of a finding the
    enrichment touches, which files a run writes and what it reports. */
module FetcherProps {
  import opened PyJson
  import opened Gateway
  import opened FetcherSpec

  // ---------------------------------------------------------------------------
  // Pagination

  /** The listing after page 1: pages 2, 3, ... in order, never more than 19 of
      them, so at most 20 pages (10000 findings) are read; below the cap exactly
      as many pages as the total needs. */
  lemma ExtraPagesShape(total: int)
    ensures |ExtraPages(total)| <= 19
    ensures forall i :: 0 <= i < |ExtraPages(total)| ==> ExtraPages(total)[i] == i + 2
    ensures total <= PageSize ==> ExtraPages(total) == []
    ensures PageSize < total <= 20 * PageSize ==> 1 + |ExtraPages(total)| == (total + PageSize - 1) / PageSize
    ensures total > 20 * PageSize ==> |ExtraPages(total)| == 19
  {
    if PageSize < total <= 20 * PageSize {
      var q := (total - 1) / PageSize;
      assert q * PageSize <= total - 1 < (q + 1) * PageSize;
      assert 1 <= q <= 19;
      assert (total + PageSize - 1) / PageSize == q + 1 by {
        assert (q + 1) * PageSize <= total + PageSize - 1 < (q + 2) * PageSize;
      }
    } else if total > 20 * PageSize {
      assert (total - 1) / PageSize >= 20;
    }
  }

  /** The component listing is not capped, and it asks for one page more than the
      total needs whenever the total is a positive multiple of 500 (that last page
      is empty). */
  lemma ComponentPagesCount(total: int)
    requires total >= 0
    ensures |ComponentPages(total / PageSize)| == total / PageSize
    ensures forall i :: 0 <= i < total / PageSize ==> ComponentPages(total / PageSize)[i] == i + 2
    ensures 1 + |ComponentPages(total / PageSize)|
            == (total + PageSize - 1) / PageSize + (if total % PageSize == 0 then 1 else 0)
  {
    var q := total / PageSize;
    var r := total % PageSize;
    assert total == q * PageSize + r && 0 <= r < PageSize;
    if r == 0 {
      assert (total + PageSize - 1) / PageSize == q by {
        assert q * PageSize <= total + PageSize - 1 < (q + 1) * PageSize;
      }
    } else {
      assert (total + PageSize - 1) / PageSize == q + 1 by {
        assert (q + 1) * PageSize <= total + PageSize - 1 < (q + 2) * PageSize;
      }
    }
  }

  /** A listing at or under 500 findings is page 1 alone, with no further call. */
  lemma SmallListingIsFirstPage(server: Server, t: nat, req: Request, field: string, first: Json, total: Json)
    requires Greater(total, PageSize) == Ok(false)
    ensures Paginate(server, t, req, field, first, total) == (Ok(first), t)
  {
  }

  /** When no page raises, one call is made per page, in page order, and the
      batches come back in that order. */
  lemma {:induction false} BatchesInOrder(server: Server, t: nat, req: Request, field: string, pages: seq<int>)
    ensures var (r, t1) := Batches(server, t, req, field, pages);
            r.Ok? ==> t1 == t + |pages| && |r.value| == |pages| &&
                      forall i :: 0 <= i < |pages| ==>
                        Batch(server(t + i, WithPage(req, pages[i])), field) == Ok(r.value[i])
    ensures Batches(server, t, req, field, pages).1 <= t + |pages|
    decreases |pages|
  {
    if pages != [] {
      BatchesInOrder(server, t + 1, req, field, pages[1..]);
      var b := Batch(server(t, WithPage(req, pages[0])), field);
      if b.Ok? {
        var (rest, t2) := Batches(server, t + 1, req, field, pages[1..]);
        if rest.Ok? {
          forall i | 0 <= i < |pages|
            ensures Batch(server(t + i, WithPage(req, pages[i])), field)
                    == Ok(([b.value] + rest.value)[i])
          {
            if i > 0 {
              assert pages[1..][i - 1] == pages[i];
              assert t + 1 + (i - 1) == t + i;
            }
          }
        }
      }
    }
  }

  /** The items of the lists, one list after the other. */
  function Flatten(values: seq<Json>): seq<Json>
    requires forall i :: 0 <= i < |values| ==> values[i].Arr?
  {
    if values == [] then [] else values[0].items + Flatten(values[1..])
  }

  /** Extending page 1's list with the batches appends their items in page order. */
  lemma {:induction false} ExtendAllAppends(items: seq<Json>, values: seq<Json>)
    requires forall i :: 0 <= i < |values| ==> values[i].Arr?
    ensures ExtendAll(Arr(items), values) == Ok(Arr(items + Flatten(values)))
    decreases |values|
  {
    if values != [] {
      assert Extend(Arr(items), values[0]) == Ok(Arr(items + values[0].items));
      assert ExtendAll(Arr(items), values) == ExtendAll(Arr(items + values[0].items), values[1..]);
      ExtendAllAppends(items + values[0].items, values[1..]);
      assert (items + values[0].items) + Flatten(values[1..]) == items + Flatten(values);
    } else {
      assert items + [] == items;
    }
  }

  /** A listing field that is not a list cannot be extended: it fails as soon as
      a further page exists. */
  lemma ExtendNonList(acc: Json, values: seq<Json>)
    requires !acc.Arr? && values != []
    ensures ExtendAll(acc, values) == Err(NoAttribute(acc, "extend"))
  {
  }

  // ---------------------------------------------------------------------------
  // Details and their retries

  /** A `None` answer (401, another status, or an `errors` payload) is a failed
      attempt: testing `"rule" in None` raises. */
  lemma NoneAnswerFails(reply: Reply, issue: Finding, hotspot: bool)
    requires Classify(reply) == Ok(Null)
    ensures Attempt(reply, issue, hotspot) == Err(NotContainer(Null))
  {
  }

  /** The retry loop: the first successful attempt is the result, at most three
      calls are made, and when all three fail the third exception propagates. */
  lemma RetryOutcome(server: Server, t: nat, req: Request, issue: Finding, hotspot: bool)
    ensures var a0 := Attempt(server(t, req), issue, hotspot);
            var a1 := Attempt(server(t + 1, req), issue, hotspot);
            var a2 := Attempt(server(t + 2, req), issue, hotspot);
            var r := Retry(server, t, req, issue, hotspot, 0);
            (a0.Ok? ==> r == (a0, t + 1)) &&
            (a0.Err? && a1.Ok? ==> r == (a1, t + 2)) &&
            (a0.Err? && a1.Err? ==> r == (a2, t + 3))
  {
    var a0 := Attempt(server(t, req), issue, hotspot);
    var a1 := Attempt(server(t + 1, req), issue, hotspot);
    if a0.Err? {
      assert Retry(server, t, req, issue, hotspot, 0) == Retry(server, t + 1, req, issue, hotspot, 1);
      if a1.Err? {
        assert Retry(server, t + 1, req, issue, hotspot, 1) == Retry(server, t + 2, req, issue, hotspot, 2);
      }
    }
  }

  /** The keys a detail merge may set. */
  function DetailKeys(hotspot: bool): set<string> {
    if hotspot then {"name", "riskDescription", "vulnerabilityDescription", "fixRecommendations", "comments"}
    else {"description"}
  }

  /** `f` is `orig` with at most the keys `added` set: every other field is kept
      with its value, and no other field appears. */
  predicate Extends(orig: Finding, f: Finding, added: set<string>) {
    (forall k :: k in orig && k !in added ==> k in f && f[k] == orig[k]) &&
    (forall k :: k in f ==> k in orig || k in added)
  }

  lemma ExtendsTrans(a: Finding, b: Finding, c: Finding, x: set<string>, y: set<string>)
    requires Extends(a, b, x) && Extends(b, c, y)
    ensures Extends(a, c, x + y)
  {
  }

  /** An issue's merge sets `description` to the rule's truthy `htmlDesc`, else its
      `descriptionSections`, else the default text. */
  lemma IssueDescription(issue: Finding, rule: map<string, Json>, data: map<string, Json>)
    requires "rule" in data && data["rule"] == Obj(rule)
    ensures var html := if "htmlDesc" in rule then rule["htmlDesc"] else Null;
            var described := if Truthy(html) then html
                             else if "descriptionSections" in rule then rule["descriptionSections"]
                             else Str(NoDescription);
            MergeDetail(issue, Obj(data), false) == Ok(issue["description" := described])
  {
  }

  /** A hotspot's merge copies the four texts of its rule, `"None"` for a missing
      one, and its comments, `[]` when missing. */
  lemma HotspotFields(issue: Finding, rule: map<string, Json>, data: map<string, Json>)
    requires "rule" in data && data["rule"] == Obj(rule)
    ensures var text := (k: string) => if k in rule then rule[k] else Str("None");
            MergeDetail(issue, Obj(data), true)
              == Ok(issue["name" := text("name")]["riskDescription" := text("riskDescription")]
                         ["vulnerabilityDescription" := text("vulnerabilityDescription")]
                         ["fixRecommendations" := text("fixRecommendations")]
                         ["comments" := if "comment" in data then data["comment"] else Arr([])])
  {
  }

  /** A payload without `rule` leaves the finding as it was. */
  lemma NoRuleKeepsFinding(issue: Finding, data: map<string, Json>, hotspot: bool)
    requires "rule" !in data
    ensures MergeDetail(issue, Obj(data), hotspot) == Ok(issue)
  {
  }

  lemma MergeExtends(issue: Finding, data: Json, hotspot: bool)
    ensures MergeDetail(issue, data, hotspot).Ok? ==>
              Extends(issue, MergeDetail(issue, data, hotspot).value, DetailKeys(hotspot))
  {
  }

  lemma {:induction false} RetryExtends(server: Server, t: nat, req: Request, issue: Finding, hotspot: bool, attempt: nat)
    requires attempt < MaxRetries
    ensures var (r, _) := Retry(server, t, req, issue, hotspot, attempt);
            r.Ok? ==> Extends(issue, r.value, DetailKeys(hotspot))
    decreases MaxRetries - attempt
  {
    var reply := server(t, req);
    var data := Classify(reply);
    if data.Ok? {
      MergeExtends(issue, data.value, hotspot);
    }
    var r := Attempt(reply, issue, hotspot);
    if !(r.Ok? || attempt == MaxRetries - 1) {
      RetryExtends(server, t + 1, req, issue, hotspot, attempt + 1);
    }
  }

  // ---------------------------------------------------------------------------
  // Snippets

  /** A finding without `line` and `textRange` gets no snippet and costs no call. */
  lemma IneligibleUntouched(server: Server, t: nat, cfg: Config, f: Finding)
    requires "line" !in f && "textRange" !in f
    ensures Snippet(server, t, cfg, f) == (Ok(f), t)
  {
  }

  /** The snippet step either leaves the finding as it was or sets `snippet` to a
      non-empty list; an eligible finding without `key` raises KeyError before
      any call. */
  lemma SnippetOnlyAddsSnippet(server: Server, t: nat, cfg: Config, f: Finding)
    ensures var (r, t1) := Snippet(server, t, cfg, f);
            (SnippetEligible(f) && "key" !in f ==> r == Err(Exc(ReprStr("key"))) && t1 == t) &&
            (SnippetEligible(f) && "key" in f ==> r.Ok? && t1 == t + 1) &&
            (r.Ok? ==> Extends(f, r.value, {"snippet"}) &&
                       (r.value == f ||
                        ("snippet" in r.value && r.value["snippet"].Arr? && r.value["snippet"].items != [] &&
                         r.value == f["snippet" := r.value["snippet"]])))
  {
  }

  /** Any exception inside the `try` of `_get_snippet` (a raising or `None`
      answer, a component entry that is not a dict, `sources` that cannot be
      iterated) leaves the finding without a new snippet, after the one call. */
  lemma SnippetFailureKeepsFinding(server: Server, t: nat, cfg: Config, f: Finding)
    requires SnippetEligible(f) && "key" in f
    ensures var data := Classify(server(t, SnippetRequest(cfg, f["key"])));
            (data.Err? || data == Ok(Null) || SnippetSources(data, Field(f, "component")).None?) ==>
              Snippet(server, t, cfg, f) == (Ok(f), t + 1)
  {
  }

  /** When the payload lists the component's `sources`, the snippet is every kept
      source line in source order, and it is set only when there is one. */
  lemma SnippetOfSources(server: Server, t: nat, cfg: Config, f: Finding, sources: seq<Json>)
    requires SnippetEligible(f) && "key" in f
    requires SnippetSources(Classify(server(t, SnippetRequest(cfg, f["key"]))), Field(f, "component")) == Some(sources)
    ensures Snippet(server, t, cfg, f)
            == (Ok(if Selected(sources) != [] then f["snippet" := Arr(Selected(sources))] else f), t + 1)
  {
    SnippetEntriesAreSelected(sources);
  }

  /** The code of a snippet line keeps its text and has its leading whitespace
      doubled: `n` leading spaces become `2n`. */
  lemma SnippetDoublesIndent(line: Json, n: nat, body: string)
    requires Truthy(line)
    requires n > 0 || body != []
    requires body == [] || !IsSpace(body[0])
    ensures SnippetEntry(Obj(map["line" := line, "code" := Str(Spaces(n) + body)]))
            == Some(Obj(map["line" := line, "code" := Str(Spaces(2 * n) + body)]))
  {
    var code := Spaces(n) + body;
    assert Truthy(Str(code)) by {
      assert |code| == n + |body|;
    }
    IndentDoubled(n, body);
  }

  lemma IndentDoubled(n: nat, body: string)
    requires body == [] || !IsSpace(body[0])
    ensures Spaces(LeadingSpace(Spaces(n) + body)) + (Spaces(n) + body) == Spaces(2 * n) + body
  {
    var code := Spaces(n) + body;
    calc {
      Spaces(LeadingSpace(code)) + code;
    == { LeadingSpaceOfIndented(n, body); }
      Spaces(n) + (Spaces(n) + body);
    == { assert Spaces(n) + (Spaces(n) + body) == (Spaces(n) + Spaces(n)) + body; }
      (Spaces(n) + Spaces(n)) + body;
    == { SpacesAdd(n, n); }
      Spaces(2 * n) + body;
    }
  }

  /** Every kept snippet line comes from a source line with a truthy line number. */
  lemma {:induction false} SnippetEntriesFromSources(sources: seq<Json>)
    ensures |SnippetEntries(sources)| <= |sources|
    ensures forall e :: e in SnippetEntries(sources) ==>
              exists s :: s in sources && SnippetEntry(s) == Some(e)
  {
    if sources != [] {
      var n := |sources|;
      SnippetEntriesFromSources(sources[..n - 1]);
      assert SnippetEntries(sources) == SnippetEntries(sources[..n - 1]) + EntryOf(sources[n - 1]);
      forall e | e in SnippetEntries(sources)
        ensures exists s :: s in sources && SnippetEntry(s) == Some(e)
      {
        if e in SnippetEntries(sources[..n - 1]) {
          var s :| s in sources[..n - 1] && SnippetEntry(s) == Some(e);
          assert s in sources;
        } else {
          assert e in EntryOf(sources[n - 1]);
          assert SnippetEntry(sources[n - 1]) == Some(e);
        }
      }
    }
  }

  /** The line a source contributes to a snippet: its entry, or nothing. */
  function EntryOf(source: Json): seq<Json> {
    match SnippetEntry(source) case None => [] case Some(e) => [e]
  }

  /** Every kept source line, in source order: the reference selection, from the front. */
  function Selected(sources: seq<Json>): seq<Json> {
    if sources == [] then [] else EntryOf(sources[0]) + Selected(sources[1..])
  }

  /** The reference keeps the last source's line last. */
  lemma {:induction false} SelectedLast(sources: seq<Json>)
    requires sources != []
    ensures Selected(sources) == Selected(sources[..|sources| - 1]) + EntryOf(sources[|sources| - 1])
    decreases |sources|
  {
    var n := |sources|;
    var init, last := sources[..n - 1], sources[n - 1];
    if n == 1 {
      assert sources[1..] == [] && init == [];
    } else {
      var tail := sources[1..];
      assert tail[..|tail| - 1] == init[1..];
      assert tail[|tail| - 1] == last;
      assert init[0] == sources[0];
      SelectedLast(tail);
      calc {
        Selected(sources);
        EntryOf(sources[0]) + Selected(tail);
        EntryOf(sources[0]) + (Selected(init[1..]) + EntryOf(last));
        (EntryOf(init[0]) + Selected(init[1..])) + EntryOf(last);
        Selected(init) + EntryOf(last);
      }
    }
  }

  /** The `for source in sources` loop collects exactly the reference selection:
      every source line that is kept, once, in source order. */
  lemma {:induction false} SnippetEntriesAreSelected(sources: seq<Json>)
    ensures SnippetEntries(sources) == Selected(sources)
    decreases |sources|
  {
    if sources != [] {
      var n := |sources|;
      SelectedLast(sources);
      SnippetEntriesAreSelected(sources[..n - 1]);
      assert SnippetEntries(sources) == SnippetEntries(sources[..n - 1]) + EntryOf(sources[n - 1]);
    }
  }

  // ---------------------------------------------------------------------------
  // A batch of findings

  /** `DetailsAll` keeps the number and order of findings and changes each only in
      its detail keys. */
  lemma {:induction false} DetailsAllExtends(server: Server, t: nat, cfg: Config, items: seq<Json>, hotspot: bool)
    ensures var (r, _) := DetailsAll(server, t, cfg, items, hotspot);
            r.Ok? ==> |r.value| == |items| &&
                      forall i :: 0 <= i < |items| ==>
                        items[i].Obj? && Extends(items[i].fields, r.value[i], DetailKeys(hotspot))
    decreases |items|
  {
    if items != [] {
      var (d, t1) := Detail(server, t, cfg, items[0], hotspot);
      match DetailRequest(cfg, items[0], hotspot)
      case Err(_) =>
      case Ok(req) => RetryExtends(server, t, req, items[0].fields, hotspot, 0);
      DetailsAllExtends(server, t1, cfg, items[1..], hotspot);
      if d.Ok? {
        var (rest, _) := DetailsAll(server, t1, cfg, items[1..], hotspot);
        if rest.Ok? {
          forall i | 0 <= i < |items|
            ensures items[i].Obj? && Extends(items[i].fields, ([d.value] + rest.value)[i], DetailKeys(hotspot))
          {
            if i > 0 {
              assert items[1..][i - 1] == items[i];
            }
          }
        }
      }
    }
  }

  lemma {:induction false} SnippetsAllExtends(server: Server, t: nat, cfg: Config, fs: seq<Finding>)
    ensures var (r, _) := SnippetsAll(server, t, cfg, fs);
            r.Ok? ==> |r.value| == |fs| &&
                      forall i :: 0 <= i < |fs| ==> Extends(fs[i], r.value[i], {"snippet"})
    decreases |fs|
  {
    if fs != [] {
      var (f, t1) := Snippet(server, t, cfg, fs[0]);
      SnippetOnlyAddsSnippet(server, t, cfg, fs[0]);
      SnippetsAllExtends(server, t1, cfg, fs[1..]);
      if f.Ok? {
        var (rest, _) := SnippetsAll(server, t1, cfg, fs[1..]);
        if rest.Ok? {
          forall i | 0 <= i < |fs|
            ensures Extends(fs[i], ([f.value] + rest.value)[i], {"snippet"})
          {
            if i > 0 {
              assert fs[1..][i - 1] == fs[i];
            }
          }
        }
      }
    }
  }

  /** `_process_issues` returns one finding per listed finding, in order, each
      with every original field kept apart from the detail keys and `snippet`. */
  lemma EnrichKeepsFindings(server: Server, t: nat, cfg: Config, items: Json, hotspot: bool)
    ensures var (r, _) := Enrich(server, t, cfg, items, hotspot);
            r.Ok? ==> Iter(items).Ok? && |r.value| == |Iter(items).value| &&
                      forall i :: 0 <= i < |r.value| ==>
                        Iter(items).value[i].Obj? &&
                        Extends(Iter(items).value[i].fields, r.value[i], DetailKeys(hotspot) + {"snippet"})
  {
    match Iter(items)
    case Err(_) =>
    case Ok(list) =>
      var (details, t1) := DetailsAll(server, t, cfg, list, hotspot);
      DetailsAllExtends(server, t, cfg, list, hotspot);
      if details.Ok? {
        SnippetsAllExtends(server, t1, cfg, details.value);
        var (r, _) := SnippetsAll(server, t1, cfg, details.value);
        if r.Ok? {
          forall i | 0 <= i < |r.value|
            ensures list[i].Obj? && Extends(list[i].fields, r.value[i], DetailKeys(hotspot) + {"snippet"})
          {
            ExtendsTrans(list[i].fields, details.value[i], r.value[i], DetailKeys(hotspot), {"snippet"});
          }
        }
      }
  }

  // ---------------------------------------------------------------------------
  // One branch

  /** A `None` answer to the first issues search fails the branch with the
      AttributeError of `None.get("total")`, after that one call. */
  lemma NoneIssuesFailsBranch(server: Server, t: nat, cfg: Config, key: string, branch: Json)
    requires Classify(server(t, IssuesRequest(cfg, key, branch))) == Ok(Null)
    ensures FetchBranch(server, t, cfg, key, branch)
            == (Failed(NoAttribute(Null, "get")), [], t + 1)
  {
    assert BranchBody(server, t, cfg, key, branch) == (Err(NoAttribute(Null, "get")), t + 1);
  }

  /** A falsy answer to the hotspot search fails the branch with "Failed to fetch
      hotspots" and writes nothing. */
  lemma FalsyHotspotsFailsBranch(server: Server, t: nat, cfg: Config, key: string, branch: Json, issues: seq<Finding>)
    requires var r := Classify(server(t, HotspotsRequest(cfg, key, branch))); r.Ok? && !Truthy(r.value)
    ensures HotspotsStage(server, t, cfg, key, branch, issues)
            == (Ok((FetchResult(false, None, HotspotsFailed), [])), t + 1)
  {
  }

  /** A truthy branch that is not a string fails at `branch.replace`. */
  lemma BranchSuffixOfNonString(branch: Json)
    requires Truthy(branch) && !branch.Str?
    ensures BranchSuffix(branch).Err?
  {
  }

  // ---------------------------------------------------------------------------
  // One project

  /** The branch names are read from every listed branch, in order; a branch
      record without `name` raises. */
  lemma {:induction false} BranchNamesExact(items: seq<Json>)
    ensures BranchNames(items).Ok? <==>
              forall i :: 0 <= i < |items| ==> items[i].Obj? && "name" in items[i].fields
    ensures BranchNames(items).Ok? ==>
              |BranchNames(items).value| == |items| &&
              forall i :: 0 <= i < |items| ==> BranchNames(items).value[i] == items[i].fields["name"]
  {
    if items != [] {
      BranchNamesExact(items[1..]);
      assert forall i :: 1 <= i < |items| ==> items[1..][i - 1] == items[i];
    }
  }

  /** One write for `path`, then writes whose paths are `rest`: the paths in order. */
  lemma PathsInOrder(ws: seq<Write>, ws2: seq<Write>, path: string, rest: seq<string>)
    requires |ws| == 1 && ws[0].path == path
    requires |ws2| == |rest| && forall i :: 0 <= i < |ws2| ==> ws2[i].path == rest[i]
    ensures forall i :: 0 <= i < |ws + ws2| ==> (ws + ws2)[i].path == ([path] + rest)[i]
  {
  }

  /** The branches run in order: on success one path per branch, each the file
      that branch wrote; on failure some branch wrote nothing. */
  lemma {:induction false} RunBranchesFiles(server: Server, t: nat, cfg: Config, key: string, branches: seq<Json>)
    ensures var (r, ws, _) := RunBranches(server, t, cfg, key, branches);
            (r.Ok? ==> |r.value| == |branches| && |ws| == |branches| &&
                       forall i :: 0 <= i < |ws| ==> ws[i].path == r.value[i]) &&
            (r.Err? ==> |ws| < |branches|)
    decreases |branches|
  {
    if branches != [] {
      var (res, ws, t1) := FetchBranch(server, t, cfg, key, branches[0]);
      RunBranchesFiles(server, t1, cfg, key, branches[1..]);
      if res.success {
        var (rest, ws2, _) := RunBranches(server, t1, cfg, key, branches[1..]);
        if rest.Ok? {
          PathsInOrder(ws, ws2, res.path.value, rest.value);
        }
      }
    }
  }

  /** Path `i` is the report named after branch `i`, for every branch. */
  predicate NamedPaths(cfg: Config, key: string, branches: seq<Json>, paths: seq<string>) {
    |paths| == |branches| &&
    forall i :: 0 <= i < |branches| ==>
      BranchSuffix(branches[i]).Ok? && paths[i] == ReportPath(cfg, key, BranchSuffix(branches[i]).value)
  }

  lemma NamedPathsCons(cfg: Config, key: string, branches: seq<Json>, path: string, rest: seq<string>)
    requires branches != [] && BranchSuffix(branches[0]).Ok?
    requires path == ReportPath(cfg, key, BranchSuffix(branches[0]).value)
    requires NamedPaths(cfg, key, branches[1..], rest)
    ensures NamedPaths(cfg, key, branches, [path] + rest)
  {
    assert forall i :: 1 <= i < |branches| ==> branches[1..][i - 1] == branches[i];
  }

  /** On success the `i`-th path is the report named after the `i`-th branch. */
  lemma {:induction false} RunBranchesPaths(server: Server, t: nat, cfg: Config, key: string, branches: seq<Json>)
    ensures var r := RunBranches(server, t, cfg, key, branches).0;
            r.Ok? ==> NamedPaths(cfg, key, branches, r.value)
    decreases |branches|
  {
    if branches != [] {
      var f := FetchBranch(server, t, cfg, key, branches[0]);
      RunBranchesPaths(server, f.2, cfg, key, branches[1..]);
      if f.0.success {
        var rest := RunBranches(server, f.2, cfg, key, branches[1..]).0;
        if rest.Ok? {
          NamedPathsCons(cfg, key, branches, f.0.path.value, rest.value);
        }
      }
    }
  }

  /** Branch `i` is the first to fail: the branches before it all succeed, and the
      run ends with its message, the writes of the earlier branches and the call
      count right after it. */
  predicate BranchFailsAt(server: Server, t: nat, cfg: Config, key: string, branches: seq<Json>, i: int,
                          out: (Result<seq<string>>, seq<Write>, nat))
  {
    0 <= i < |branches| &&
    var pre := RunBranches(server, t, cfg, key, branches[..i]);
    var f := FetchBranch(server, pre.2, cfg, key, branches[i]);
    pre.0.Ok? && !f.0.success && out == (Err(Exc(f.0.message)), pre.1, f.2)
  }

  /** `process_project` raises with the message of the first failing branch, and
      runs no branch after it. */
  lemma {:induction false} RunBranchesFailure(server: Server, t: nat, cfg: Config, key: string, branches: seq<Json>)
    ensures var out := RunBranches(server, t, cfg, key, branches);
            out.0.Err? ==> exists i :: BranchFailsAt(server, t, cfg, key, branches, i, out)
    decreases |branches|
  {
    var out := RunBranches(server, t, cfg, key, branches);
    if branches != [] && out.0.Err? {
      var f := FetchBranch(server, t, cfg, key, branches[0]);
      if !f.0.success {
        assert branches[..0] == [];
        assert BranchFailsAt(server, t, cfg, key, branches, 0, out);
      } else {
        var tail := branches[1..];
        var inner := RunBranches(server, f.2, cfg, key, tail);
        RunBranchesFailure(server, f.2, cfg, key, tail);
        var j :| BranchFailsAt(server, f.2, cfg, key, tail, j, inner);
        var prefix := branches[..j + 1];
        assert prefix[0] == branches[0] && prefix[1..] == tail[..j];
        assert tail[j] == branches[j + 1];
        var pre' := RunBranches(server, f.2, cfg, key, tail[..j]);
        assert RunBranches(server, t, cfg, key, prefix)
               == (Prepend([f.0.path.value], pre'.0), f.1 + pre'.1, pre'.2);
        assert BranchFailsAt(server, t, cfg, key, branches, j + 1, out);
      }
    }
  }

  // ---------------------------------------------------------------------------
  // All projects

  /** The first components page keeps exactly the keys the pattern matches; any
      component without a string `key` raises. */
  lemma {:induction false} FilterKeysExact(cfg: Config, components: seq<Json>)
    ensures FilterKeys(cfg, components).Ok? <==>
              forall i :: 0 <= i < |components| ==>
                components[i].Obj? && "key" in components[i].fields && components[i].fields["key"].Str?
    ensures FilterKeys(cfg, components).Ok? ==>
              (forall k :: k in FilterKeys(cfg, components).value ==> cfg.projects(k)) &&
              (forall i :: 0 <= i < |components| && cfg.projects(components[i].fields["key"].s) ==>
                 components[i].fields["key"].s in FilterKeys(cfg, components).value)
  {
    if components != [] {
      FilterKeysExact(cfg, components[1..]);
      assert forall i :: 1 <= i < |components| ==> components[1..][i - 1] == components[i];
    }
  }

  /** Filtering a listing in two parts filters the first part and then the
      second: the kept keys stay in server order, each component once. */
  lemma {:induction false} FilterKeysSplit(cfg: Config, a: seq<Json>, b: seq<Json>)
    ensures FilterKeys(cfg, a + b)
            == (var fa := FilterKeys(cfg, a); if fa.Err? then fa else Prepend(fa.value, FilterKeys(cfg, b)))
    decreases |a|
  {
    if a == [] {
      assert a + b == b;
      PrependNothing(FilterKeys(cfg, b));
    } else {
      assert (a + b)[0] == a[0] && (a + b)[1..] == a[1..] + b;
      FilterKeysSplit(cfg, a[1..], b);
      var rest := FilterKeys(cfg, a[1..]);
      if rest.Ok? {
        var key := Index(a[0], "key");
        if key.Ok? && Search(cfg.projects, key.value).Ok? {
          var kept := if Search(cfg.projects, key.value).value then [key.value.s] else [];
          PrependTwice(kept, rest.value, FilterKeys(cfg, b));
        }
      }
    }
  }

  /** One component with a string key keeps that key exactly when the pattern
      matches it. */
  lemma FilterKeysOne(cfg: Config, c: Json)
    requires c.Obj? && "key" in c.fields && c.fields["key"].Str?
    ensures FilterKeys(cfg, [c]) == Ok(if cfg.projects(c.fields["key"].s) then [c.fields["key"].s] else [])
  {
    var kept := if cfg.projects(c.fields["key"].s) then [c.fields["key"].s] else [];
    assert [c][1..] == [];
    assert FilterKeys(cfg, [c]) == Prepend(kept, FilterKeys(cfg, []));
    assert kept + [] == kept;
  }

  /** The closing scan: the first failed project in key order is reported, else
      every path of every project, in order. */
  lemma {:induction false} ScanReports(files: seq<string>, results: seq<Result<seq<string>>>)
    ensures Scan(files, results)
            == match FirstFailure(results)
               case Some(e) => "Project processing failed: " + e.message
               case None => "Success! Data saved to " + ReprList(files + AllFiles(results))
    decreases |results|
  {
    if results == [] {
      assert files + [] == files;
    } else if results[0].Ok? {
      ScanReports(files + results[0].value, results[1..]);
      assert files + results[0].value + AllFiles(results[1..]) == files + AllFiles(results);
    }
  }

  lemma {:induction false} RunProjectsLength(server: Server, t: nat, cfg: Config, keys: seq<string>)
    ensures |RunProjects(server, t, cfg, keys).0| == |keys|
    decreases |keys|
  {
    if keys != [] {
      var (_, _, t1) := Project(server, t, cfg, keys[0]);
      RunProjectsLength(server, t1, cfg, keys[1..]);
    }
  }

  /** What `fetch_all` returns: the listing's exception, "No matching projects
      found." (no file written), or the outcome of running every matching
      project once, in key order. */
  lemma ExtractionReports(server: Server, t: nat, cfg: Config)
    ensures var (m, ws, _) := Extraction(server, t, cfg);
            var (keys, t1) := CollectKeys(server, t, cfg);
            (keys.Err? ==> m == "An error occurred: " + keys.error.message && ws == []) &&
            (keys == Ok([]) ==> m == NoProjects && ws == []) &&
            (keys.Ok? && keys.value != [] ==>
               var (results, ws2, _) := RunProjects(server, t1, cfg, keys.value);
               ws == ws2 && |results| == |keys.value| &&
               m == match FirstFailure(results)
                    case Some(e) => "Project processing failed: " + e.message
                    case None => "Success! Data saved to " + ReprList(AllFiles(results)))
  {
    var (keys, t1) := CollectKeys(server, t, cfg);
    if keys.Ok? && keys.value != [] {
      var (results, _, _) := RunProjects(server, t1, cfg, keys.value);
      RunProjectsLength(server, t1, cfg, keys.value);
      ScanReports([], results);
      assert [] + AllFiles(results) == AllFiles(results);
    }
  }
}
