/**
 * The crawler of 0.py: absolute ondo URLs and relative API paths found in
 * every fetched text, relative paths rebuilt on the crawled page's origin,
 * URLs flagged as API endpoints when they contain one of the API segments
 * anywhere, and both anchors and script sources filtered to ondo domains
 * before they are queued.
 */
module Crawler0 {
  import opened Maybe
  import opened Text
  import opened Scanner
  import opened Frontier
  import opened CrawlCore

  /** `API_SEGMENTS`. */
  const ApiSegments: seq<string> := ["public/v1", "api", "query", "submit"]

  /** `(/(?:public/v1|api|query|submit)[^"'\s<>]*)` with IGNORECASE. */
  const SegmentPattern := Pattern(
    ["/" + "public/v1", "/" + "api", "/" + "query", "/" + "submit"], 0)

  lemma SegmentPatternWellFormed()
    ensures WellFormed(SegmentPattern)
  {
    UrlCharsDelimiterFree("/" + "public/v1");
    UrlCharsDelimiterFree("/" + "api");
    UrlCharsDelimiterFree("/" + "query");
    UrlCharsDelimiterFree("/" + "submit");
  }

  /** `extract_relative_api_paths(text)`: `set(SEGMENT_PATTERN.findall(text))`. */
  function ExtractRelativeApiPaths(text: string): set<string>
  {
    SegmentPatternWellFormed();
    FindAllSet(SegmentPattern, text)
  }

  /**
   * The shape of a relative API path: `/`, then one of the API segments
   * compared without regard to case, then anything without a quote,
   * whitespace or angle bracket.
   */
  predicate RelativeApiPathShape(u: string)
  {
    DelimiterFree(u) && |u| > 0 && u[0] == '/'
    && (FoldedPrefix(u[1..], "public/v1") || FoldedPrefix(u[1..], "api")
        || FoldedPrefix(u[1..], "query") || FoldedPrefix(u[1..], "submit"))
  }

  lemma SlashThenSegment(u: string, segment: string)
    requires FoldedPrefix(u, "/" + segment)
    ensures |u| > 0 && u[0] == '/' && FoldedPrefix(u[1..], segment)
  {
    FoldedConcat(u, 0, "/", segment);
    FoldedAtSlice(u, 1, |u|, segment);
    assert Lower(u[0 + 0]) == "/"[0];
  }

  /** A delimiter-free string that starts with one of the segment heads has the relative API path shape. */
  lemma SegmentHeadGivesShape(u: string, hi: nat)
    requires hi < |SegmentPattern.heads|
    requires FoldedPrefix(u, SegmentPattern.heads[hi]) && DelimiterFree(u)
    ensures RelativeApiPathShape(u)
  {
    if hi == 0 {
      SlashThenSegment(u, "public/v1");
    } else if hi == 1 {
      SlashThenSegment(u, "api");
    } else if hi == 2 {
      SlashThenSegment(u, "query");
    } else {
      SlashThenSegment(u, "submit");
    }
  }

  /** The text of any match of the segment pattern has the relative API path shape. */
  lemma SegmentMatchShape(text: string, s: nat, e: nat)
    requires MatchEnd(SegmentPattern, text, s) == Some(e)
    ensures RelativeApiPathShape(text[s..e])
  {
    SegmentPatternWellFormed();
    SpanShape(SegmentPattern, text, s, e);
    var h :| h in SegmentPattern.heads && FoldedPrefix(text[s..e], h) && e - s >= |h|;
    var hi :| 0 <= hi < |SegmentPattern.heads| && SegmentPattern.heads[hi] == h;
    SegmentHeadGivesShape(text[s..e], hi);
  }

  /** Every path `extract_relative_api_paths` returns has the relative API path shape. */
  lemma ExtractRelativeApiPathsShape(text: string)
    ensures forall u :: u in ExtractRelativeApiPaths(text) ==> RelativeApiPathShape(u)
  {
    SegmentPatternWellFormed();
    forall u | u in ExtractRelativeApiPaths(text) ensures RelativeApiPathShape(u) {
      FindAllSpan(SegmentPattern, text, u);
      var s: nat, e: nat :| MatchEnd(SegmentPattern, text, s) == Some(e) && u == text[s..e];
      SegmentMatchShape(text, s, e);
    }
  }

  /** `any(seg in url for seg in API_SEGMENTS)`: case-sensitive substring search. */
  predicate IsApiUrl(url: string)
  {
    exists seg :: seg in ApiSegments && Contains(url, seg)
  }

  /**
   * The relative-path scan ignores case: a text that is `/API` followed by
   * characters the pattern accepts is found whole.
   */
  lemma CaseVariantIsFound(tail: string)
    requires DelimiterFree(tail)
    ensures "/API" + tail in ExtractRelativeApiPaths("/API" + tail)
  {
    var text := "/API" + tail;
    var n := |text|;
    SegmentPatternWellFormed();
    assert !HeadMatchesAt(SegmentPattern.heads[0], 0, text, 0) by {
      assert Lower(text[0 + 1]) != SegmentPattern.heads[0][1];
    }
    RunEndMaximal(text, 4);
    assert RunEnd(text, 4) == n;
    assert HeadMatchesAt(SegmentPattern.heads[1], 0, text, 0) by {
      assert text[0] == '/' && text[1] == 'A' && text[2] == 'P' && text[3] == 'I';
    }
    assert MatchEnd(SegmentPattern, text, 0) == Some(n);
    EndsAdvance(SegmentPattern, text);
    assert Ends(SegmentPattern, text)(0) == Some(n);
    assert Scan(Ends(SegmentPattern, text), n, n) == [];
    assert Spans(SegmentPattern, text) == [(0, n)];
    assert FindAll(SegmentPattern, text)[0] == text[0..n] == text;
  }

  /**
   * The classifier does not ignore case: `https://ondo.finance/API/x`, the
   * URL `/API/x` becomes on the ondo.finance origin, contains none of the
   * API segments.
   */
  lemma CaseVariantIsNotFlagged()
    ensures !IsApiUrl("https://ondo.finance/API/x")
  {
    var u := "https://ondo.finance/API/x";
    assert 'u' !in u;
    MissingChar(u, "public/v1", 1);
    MissingChar(u, "submit", 1);
    MissingChar(u, "query", 0);
    // the one `a` of the URL, in `finance`, is followed by `n`, not `p`
    forall i: nat | i + |"api"| <= |u| ensures !OccursAt(u, "api", i) {
      if i == 16 {
        assert u[17] == 'n';
        assert u[i..i + 3][1] != "api"[1];
      } else {
        assert u[i] != 'a';
        assert u[i..i + 3][0] != "api"[0];
      }
    }
  }

  /**
   * A page whose text is `/API/x`, on a site whose origin joins that path
   * into `https://ondo.finance/API/x`: the scan finds the path, so the URL is
   * recorded in all_urls, but the case-sensitive classifier leaves api_urls
   * as it was on that URL.
   */
  lemma CaseVariantRecordedNotFlagged(env: Env, maxDepth: int, s: CrawlState, pushed: seq<string>)
    requires KindOf(env, maxDepth, s) == Crawled
    requires env.fetch(s.queue[0].url) == "/API/x"
    requires env.urljoin(Origin(env, s.queue[0].url), "/API/x") == "https://ondo.finance/API/x"
    ensures var t := Successor(env, maxDepth, s, pushed); var u := "https://ondo.finance/API/x";
      u in t.allUrls && (u in t.apiUrls <==> u in s.apiUrls)
  {
    var url := s.queue[0].url;
    var u := "https://ondo.finance/API/x";
    UrlCharsDelimiterFree("/x");
    CaseVariantIsFound("/x");
    assert "/API" + "/x" == "/API/x";
    assert u in Rebuilt(env, url, ExtractRelativeApiPaths("/API/x"));
    assert u in Found(env, url, "/API/x");
    CaseVariantIsNotFlagged();
    assert u !in Flagged(env, url, "/API/x");
  }

  /**
   * The check is a substring search, not a segment match: `/capital` holds
   * `api` inside a word and is flagged.
   */
  lemma SubstringIsEnough()
    ensures IsApiUrl("/capital")
  {
    var text := "/capital";
    assert text[2..2 + |"api"|] == "api";
    assert OccursAt(text, "api", 2);
    assert "api" in ApiSegments;
  }

  /** `extract_script_srcs(html, base_url)` of 0.py: script sources kept only on ondo domains. */
  method ExtractScriptSrcs(env: Env, html: string, base: string) returns (srcs: set<string>)
    ensures srcs == InScopeLinks(env, env.srcs(html), base)
    ensures forall l :: l in srcs ==> OndoNetloc(env.netloc(l))
  {
    srcs := CollectInScope(env, env.srcs(html), base);
  }

  /** `f"{parsed.scheme}://{parsed.netloc}"` for the crawled page. */
  function Origin(env: Env, url: string): string
  {
    env.scheme(url) + "://" + env.netloc(url)
  }

  /** `urljoin(base, r)` for every `r` of `rels`. */
  function JoinAll(env: Env, base: string, rels: set<string>): set<string>
  {
    set r | r in rels :: env.urljoin(base, r)
  }

  lemma JoinAllAdd(env: Env, base: string, rels: set<string>, r: string)
    ensures JoinAll(env, base, rels + {r}) == JoinAll(env, base, rels) + {env.urljoin(base, r)}
  {
  }

  /** Relative paths rebuilt as `urljoin(base, rel_path)` on the page's origin. */
  function Rebuilt(env: Env, url: string, rels: set<string>): set<string>
  {
    JoinAll(env, Origin(env, url), rels)
  }

  /** What one crawled page adds to `all_urls`. */
  function Found(env: Env, url: string, text: string): set<string>
  {
    ExtractUrlsFromText(text) + Rebuilt(env, url, ExtractRelativeApiPaths(text))
  }

  /** The URLs among `urls` that the classifier flags. */
  function ApiOnly(urls: set<string>): set<string>
  {
    set u | u in urls && IsApiUrl(u)
  }

  /** Classifying one more URL flags it or not, and leaves the others as they were. */
  lemma ApiOnlyAdd(urls: set<string>, u: string)
    ensures ApiOnly(urls + {u}) == ApiOnly(urls) + (if IsApiUrl(u) then {u} else {})
  {
  }

  lemma ApiOnlyUnion(a: set<string>, b: set<string>)
    ensures ApiOnly(a + b) == ApiOnly(a) + ApiOnly(b)
  {
  }

  /** What one crawled page adds to `api_urls`. */
  function Flagged(env: Env, url: string, text: string): set<string>
  {
    ApiOnly(Found(env, url, text))
  }

  /** `extract_internal_links(...) | extract_script_srcs(...)`. */
  function NewLinks(env: Env, url: string, text: string): set<string>
  {
    InScopeLinks(env, env.hrefs(text), url) + InScopeLinks(env, env.srcs(text), url)
  }

  /** The links an iteration pushes: discovered on a crawled page and not visited. */
  function Pending(env: Env, maxDepth: int, s: CrawlState): set<string>
  {
    if KindOf(env, maxDepth, s) != Crawled then {}
    else
      var url := s.queue[0].url;
      set l | l in NewLinks(env, url, env.fetch(url)) && l !in s.visited + {url}
  }

  /** The state after one iteration of 0.py's worker loop, pushing `pushed` in that order. */
  function Successor(env: Env, maxDepth: int, s: CrawlState, pushed: seq<string>): CrawlState
  {
    if s.queue == [] then s
    else
      var url := s.queue[0].url;
      var text := env.fetch(url);
      Next(s, KindOf(env, maxDepth, s), Found(env, url, text), Flagged(env, url, text), pushed)
  }

  /** What `Successor` and `Pending` come to once the popped entry passes the skip check. */
  lemma SuccessorOfVisit(env: Env, maxDepth: int, s: CrawlState, pushed: seq<string>)
    requires s.queue != [] && s.queue[0].url !in s.visited && s.queue[0].depth <= maxDepth
    ensures var e := s.queue[0]; var text := env.fetch(e.url);
      if text == "" then
        KindOf(env, maxDepth, s) == FetchFailed && Pending(env, maxDepth, s) == {}
        && Successor(env, maxDepth, s, pushed) == CrawlState(s.queue[1..], s.visited + {e.url}, s.allUrls, s.apiUrls)
      else
        KindOf(env, maxDepth, s) == Crawled
        && Pending(env, maxDepth, s) == (set l | l in NewLinks(env, e.url, text) && l !in s.visited + {e.url})
        && Successor(env, maxDepth, s, pushed) == CrawlState(s.queue[1..] + Children(pushed, e.depth), s.visited + {e.url},
                                                            s.allUrls + Found(env, e.url, text), s.apiUrls + Flagged(env, e.url, text))
  {
  }

  /** The invariant 0.py's result sets keep: every API URL is recorded and contains a segment. */
  predicate ResultsConsistent(s: CrawlState)
  {
    s.apiUrls <= s.allUrls && forall u :: u in s.apiUrls ==> IsApiUrl(u)
  }

  /** One iteration keeps `api_urls ⊆ all_urls` and the classification of api_urls. */
  lemma SuccessorKeepsResultsConsistent(env: Env, maxDepth: int, s: CrawlState, pushed: seq<string>)
    requires ResultsConsistent(s)
    ensures ResultsConsistent(Successor(env, maxDepth, s, pushed))
  {
    if s.queue != [] {
      var url := s.queue[0].url;
      var text := env.fetch(url);
      NextKeepsResultsConsistent(s, KindOf(env, maxDepth, s), Found(env, url, text), pushed);
    }
  }

  lemma NextKeepsResultsConsistent(s: CrawlState, kind: StepKind, found: set<string>, pushed: seq<string>)
    requires ResultsConsistent(s)
    ensures ResultsConsistent(Next(s, kind, found, ApiOnly(found), pushed))
  {
    NextKeepsApiWithinAll(s, kind, found, ApiOnly(found), pushed);
  }

  /**
   * On a crawled page, a found URL lands in api_urls exactly when it contains
   * an API segment (or was there already), and every URL it records is
   * either an absolute ondo URL of the text or a relative API path of the
   * text joined onto the page's own origin.
   */
  lemma SuccessorRecords(env: Env, maxDepth: int, s: CrawlState, pushed: seq<string>)
    requires KindOf(env, maxDepth, s) == Crawled
    ensures var url := s.queue[0].url; var text := env.fetch(url);
      var t := Successor(env, maxDepth, s, pushed);
      (forall u :: u in Found(env, url, text) ==> u in t.allUrls && (u in t.apiUrls <==> u in s.apiUrls || IsApiUrl(u)))
      && (forall u :: u in t.allUrls - s.allUrls ==>
            (OndoUrlShape(u) && u in ExtractUrlsFromText(text))
            || exists r :: RelativeApiPathShape(r) && r in ExtractRelativeApiPaths(text) && u == env.urljoin(Origin(env, url), r))
  {
    var url := s.queue[0].url;
    var text := env.fetch(url);
    ExtractUrlsShape(text);
    ExtractRelativeApiPathsShape(text);
  }

  /**
   * Pushed links are not visited, not the crawled url itself, all discovered
   * on the page and on an ondo domain, and each is queued one level deeper.
   */
  lemma SuccessorPushes(env: Env, maxDepth: int, s: CrawlState, pushed: seq<string>)
    requires KindOf(env, maxDepth, s) == Crawled
    requires IsEnumeration(pushed, Pending(env, maxDepth, s))
    ensures var t := Successor(env, maxDepth, s, pushed);
      (forall l :: l in pushed ==> l !in t.visited && OndoNetloc(env.netloc(l)))
      && |t.queue| == |s.queue| - 1 + |pushed|
      && forall k :: |s.queue| - 1 <= k < |t.queue| ==> t.queue[k].depth == s.queue[0].depth + 1
  {
    var url := s.queue[0].url;
    var text := env.fetch(url);
    NextPushesOneDeeper(s, Found(env, url, text), Flagged(env, url, text), pushed);
  }

  /** One worker of 0.py running alone over the shared crawl state. */
  class Crawler {
    const env: Env
    const maxDepth: int
    const frontier: TaskQueue
    var visited: set<string>
    var allUrls: set<string>
    var apiUrls: set<string>
    /** Every (url, depth) handed to `fetch_text`, in order. */
    ghost var fetched: seq<Entry>

    ghost function State(): CrawlState
      reads this, frontier
    {
      CrawlState(frontier.items, visited, allUrls, apiUrls)
    }

    /**
     * Between iterations: every task put is either queued or done, the
     * result sets are consistent, exactly the fetched urls are visited, no
     * url was fetched twice and none deeper than `max_depth`.
     */
    ghost predicate Valid()
      reads this, frontier
    {
      frontier.unfinished == |frontier.items|
      && ResultsConsistent(State())
      && visited == UrlsOf(fetched)
      && FetchedOnce(fetched)
      && forall k :: 0 <= k < |fetched| ==> fetched[k].depth <= maxDepth
    }

    /** The seeding in `crawl_domain`: empty sets and `(start_url, 0)` queued. */
    constructor (env: Env, startUrl: string, maxDepth: int)
      ensures Valid() && fresh(frontier)
      ensures this.env == env && this.maxDepth == maxDepth
      ensures State() == CrawlState([Entry(startUrl, 0)], {}, {}, {})
      ensures frontier.unfinished == 1 && fetched == []
    {
      var q := new TaskQueue();
      q.Put(Entry(startUrl, 0));
      this.env := env;
      this.maxDepth := maxDepth;
      frontier := q;
      visited, allUrls, apiUrls := {}, {}, {};
      fetched := [];
    }

    /** `for abs_url in found_abs: all_urls.add(...); if any(...): api_urls.add(...)`. */
    method RecordAbsolute(urls: set<string>)
      modifies this
      ensures allUrls == old(allUrls) + urls
      ensures apiUrls == old(apiUrls) + ApiOnly(urls)
      ensures visited == old(visited) && fetched == old(fetched)
    {
      var rest := urls;
      ghost var done: set<string> := {};
      while rest != {}
        invariant done + rest == urls && done !! rest
        invariant allUrls == old(allUrls) + done
        invariant apiUrls == old(apiUrls) + ApiOnly(done)
        invariant visited == old(visited) && fetched == old(fetched)
        decreases rest
      {
        var u :| u in rest;
        ApiOnlyAdd(done, u);
        allUrls := allUrls + {u};
        if IsApiUrl(u) {
          apiUrls := apiUrls + {u};
        }
        rest := rest - {u};
        done := done + {u};
      }
    }


    /** `for rel_path in found_rel: full_url = urljoin(base, rel_path); ...`. */
    method RecordRelative(rels: set<string>, base: string)
      modifies this
      ensures allUrls == old(allUrls) + JoinAll(env, base, rels)
      ensures apiUrls == old(apiUrls) + ApiOnly(JoinAll(env, base, rels))
      ensures visited == old(visited) && fetched == old(fetched)
    {
      var rest := rels;
      ghost var done: set<string> := {};
      while rest != {}
        invariant done + rest == rels && done !! rest
        invariant allUrls == old(allUrls) + JoinAll(env, base, done)
        invariant apiUrls == old(apiUrls) + ApiOnly(JoinAll(env, base, done))
        invariant visited == old(visited) && fetched == old(fetched)
        decreases rest
      {
        var r :| r in rest;
        var fullUrl := env.urljoin(base, r);
        JoinAllAdd(env, base, done, r);
        ApiOnlyAdd(JoinAll(env, base, done), fullUrl);
        allUrls := allUrls + {fullUrl};
        if IsApiUrl(fullUrl) {
          apiUrls := apiUrls + {fullUrl};
        }
        rest := rest - {r};
        done := done + {r};
      }
    }

    /** `for link in new_links: if link not in visited: await queue.put((link, depth + 1))`. */
    method PushUnvisited(links: set<string>, depth: nat) returns (pushed: seq<string>)
      modifies frontier
      ensures IsEnumeration(pushed, set l | l in links && l !in visited)
      ensures frontier.items == old(frontier.items) + Children(pushed, depth)
      ensures frontier.unfinished == old(frontier.unfinished) + |pushed|
    {
      pushed := [];
      var rest := links;
      while rest != {}
        invariant rest <= links
        invariant IsEnumeration(pushed, set l | l in links - rest && l !in visited)
        invariant frontier.items == old(frontier.items) + Children(pushed, depth)
        invariant frontier.unfinished == old(frontier.unfinished) + |pushed|
        decreases rest
      {
        var link :| link in rest;
        assert link !in pushed;
        assert (set l | l in links - (rest - {link}) && l !in visited)
          == (set l | l in links - rest && l !in visited) + (if link !in visited then {link} else {});
        if link !in visited {
          frontier.Put(Entry(link, depth + 1));
          assert Children(pushed + [link], depth) == Children(pushed, depth) + [Entry(link, depth + 1)];
          pushed := pushed + [link];
        }
        rest := rest - {link};
      }
    }

    /**
     * The part of an iteration after the skip check: mark the url visited,
     * fetch it and, if text came back, record what it contains and push its
     * unvisited in-scope links one level deeper.
     */
    method Visit(e: Entry) returns (kind: StepKind, pushed: seq<string>)
      modifies this, frontier
      ensures var text := env.fetch(e.url);
        kind == (if text == "" then FetchFailed else Crawled)
        && visited == old(visited) + {e.url} && fetched == old(fetched) + [e]
        && (kind == FetchFailed ==>
              pushed == [] && allUrls == old(allUrls) && apiUrls == old(apiUrls)
              && frontier.items == old(frontier.items) && frontier.unfinished == old(frontier.unfinished))
        && (kind == Crawled ==>
              allUrls == old(allUrls) + Found(env, e.url, text)
              && apiUrls == old(apiUrls) + Flagged(env, e.url, text)
              && IsEnumeration(pushed, set l | l in NewLinks(env, e.url, text) && l !in old(visited) + {e.url})
              && frontier.items == old(frontier.items) + Children(pushed, e.depth)
              && frontier.unfinished == old(frontier.unfinished) + |pushed|)
    {
      visited := visited + {e.url};
      fetched := fetched + [e];
      var text := env.fetch(e.url);
      if text == "" {
        return FetchFailed, [];
      }
      var foundAbs := ExtractUrlsFromText(text);
      var foundRel := ExtractRelativeApiPaths(text);
      RecordAbsolute(foundAbs);
      RecordRelative(foundRel, Origin(env, e.url));
      ApiOnlyUnion(foundAbs, Rebuilt(env, e.url, foundRel));
      var newLinks := ExtractInternalLinks(env, text, e.url);
      var scripts := ExtractScriptSrcs(env, text, e.url);
      newLinks := newLinks + scripts;
      pushed := PushUnvisited(newLinks, e.depth);
      kind := Crawled;
    }

    /**
     * One iteration of the worker loop of 0.py: pop an entry; skip it if it
     * was visited or lies too deep, otherwise visit it; mark the task done on
     * every path that popped an entry.
     */
    method Step() returns (kind: StepKind, pushed: seq<string>)
      requires Valid()
      modifies this, frontier
      ensures Valid()
      ensures kind == KindOf(env, maxDepth, old(State()))
      ensures IsEnumeration(pushed, Pending(env, maxDepth, old(State())))
      ensures State() == Successor(env, maxDepth, old(State()), pushed)
      ensures fetched == if kind == FetchFailed || kind == Crawled then old(fetched) + [old(frontier.items)[0]] else old(fetched)
    {
      ghost var s := State();
      var got := frontier.Get();
      if got.None? {
        return Idle, [];
      }
      var e := got.value;
      if e.url in visited || e.depth > maxDepth {
        var done := frontier.TaskDone();
        assert done;
        return Skipped, [];
      }
      UrlsOfAppend(fetched, e);
      FetchedOnceAppend(fetched, e);
      kind, pushed := Visit(e);
      var done := frontier.TaskDone();
      assert done;
      SuccessorOfVisit(env, maxDepth, s, pushed);
      SuccessorKeepsResultsConsistent(env, maxDepth, s, pushed);
    }

    /**
     * `crawl_domain` with a single worker: run iterations until the queue
     * drains (`queue.join()` returns) or `budget` iterations have run.
     */
    method Crawl(budget: nat) returns (drained: bool)
      requires Valid()
      modifies this, frontier
      ensures Valid()
      ensures drained <==> frontier.Drained()
      ensures old(visited) <= visited && old(allUrls) <= allUrls && old(apiUrls) <= apiUrls
      ensures old(fetched) <= fetched
    {
      var n := budget;
      while n > 0 && frontier.items != []
        invariant Valid()
        invariant old(visited) <= visited && old(allUrls) <= allUrls && old(apiUrls) <= apiUrls
        invariant old(fetched) <= fetched
      {
        var _, _ := Step();
        n := n - 1;
      }
      drained := frontier.items == [];
    }
  }
}
