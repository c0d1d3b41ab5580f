/**
 * The crawler of _0.py: only absolute ondo URLs are recorded, a URL is
 * flagged as an API endpoint when it contains one of the slash-delimited API
 * segments, and script sources are queued without the domain filter that
 * anchors go through.
 */
module Crawler1 {
  import opened Text
  import opened Frontier
  import opened CrawlCore
  import Crawler0

  /** The segments of the inline tuple in `worker`. */
  const SlashApiSegments: seq<string> := ["/public/v1/", "/api/", "/query/", "/submit/"]

  /** `any(seg in u for seg in ("/public/v1/", "/api/", "/query/", "/submit/"))`. */
  predicate IsSlashApiUrl(url: string)
  {
    exists seg :: seg in SlashApiSegments && Contains(url, seg)
  }

  /** Every URL _0.py flags is one 0.py would flag too. */
  lemma SlashApiImpliesApi(url: string)
    requires IsSlashApiUrl(url)
    ensures Crawler0.IsApiUrl(url)
  {
    var seg :| seg in SlashApiSegments && Contains(url, seg);
    var k :| 0 <= k < 4 && seg == SlashApiSegments[k];
    var inner := Crawler0.ApiSegments[k];
    assert seg == "/" + inner + "/";
    ContainsBetweenSlashes(url, inner);
  }

  lemma ContainsBetweenSlashes(s: string, inner: string)
    requires Contains(s, "/" + inner + "/")
    ensures Contains(s, inner)
  {
    var outer := "/" + inner + "/";
    ContainsPiece(s, outer, 1, 1 + |inner|);
    assert outer[1..1 + |inner|] == inner;
  }

  lemma LongerNotContained(s: string, sub: string)
    requires |sub| > |s|
    ensures !Contains(s, sub)
  {
  }

  /** The converse fails: `/apix` contains `api` but no slash-delimited segment. */
  lemma ApiWithoutSlashes()
    ensures Crawler0.IsApiUrl("/apix")
    ensures !IsSlashApiUrl("/apix")
  {
    var text := "/apix";
    assert text[1..1 + |"api"|] == "api";
    assert OccursAt(text, "api", 1);
    assert "api" in Crawler0.ApiSegments;
    assert text[0..5][4] != "/api/"[4];
    LongerNotContained(text, "/public/v1/");
    LongerNotContained(text, "/query/");
    LongerNotContained(text, "/submit/");
  }

  /** The URLs among `urls` that the slash-segment classifier flags. */
  function ApiOnly(urls: set<string>): set<string>
  {
    set u | u in urls && IsSlashApiUrl(u)
  }

  lemma ApiOnlyAdd(urls: set<string>, u: string)
    ensures ApiOnly(urls + {u}) == ApiOnly(urls) + (if IsSlashApiUrl(u) then {u} else {})
  {
  }

  /**
   * `extract_script_srcs(html, base_url)` of _0.py: every script source,
   * resolved against the page url, with no domain filter.
   */
  method ExtractScriptSrcs(env: Env, html: string, base: string) returns (srcs: set<string>)
    ensures srcs == ResolvedLinks(env, env.srcs(html), base)
    ensures forall r :: r in env.srcs(html) ==> Resolve(env, base, r) in srcs
  {
    var refs := env.srcs(html);
    srcs := {};
    for i := 0 to |refs|
      invariant srcs == ResolvedLinks(env, refs[..i], base)
    {
      srcs := srcs + {Resolve(env, base, refs[i])};
      assert refs[..i + 1] == refs[..i] + [refs[i]];
    }
    assert refs[..|refs|] == refs;
  }

  /** What one crawled page adds to `all_urls`: its absolute ondo URLs only. */
  function Found(text: string): set<string>
  {
    ExtractUrlsFromText(text)
  }

  /** What one crawled page adds to `api_urls`. */
  function Flagged(text: string): set<string>
  {
    ApiOnly(Found(text))
  }

  /** `extract_internal_links(...) | extract_script_srcs(...)` of _0.py. */
  function NewLinks(env: Env, url: string, text: string): set<string>
  {
    InScopeLinks(env, env.hrefs(text), url) + ResolvedLinks(env, env.srcs(text), url)
  }

  /** The links an iteration pushes: discovered on a crawled page and not visited. */
  function Pending(env: Env, maxDepth: int, s: CrawlState): set<string>
  {
    if KindOf(env, maxDepth, s) != Crawled then {}
    else
      var url := s.queue[0].url;
      set l | l in NewLinks(env, url, env.fetch(url)) && l !in s.visited + {url}
  }

  /** The state after one iteration of _0.py's worker loop, pushing `pushed` in that order. */
  function Successor(env: Env, maxDepth: int, s: CrawlState, pushed: seq<string>): CrawlState
  {
    if s.queue == [] then s
    else
      var text := env.fetch(s.queue[0].url);
      Next(s, KindOf(env, maxDepth, s), Found(text), Flagged(text), pushed)
  }

  /**
   * The invariant _0.py's result sets keep: every API URL is recorded and
   * contains a slash-delimited segment, and every recorded URL is an
   * absolute ondo URL.
   */
  predicate ResultsConsistent(s: CrawlState)
  {
    s.apiUrls <= s.allUrls
    && (forall u :: u in s.apiUrls ==> IsSlashApiUrl(u))
    && forall u :: u in s.allUrls ==> OndoUrlShape(u)
  }

  lemma NextKeepsResultsConsistent(s: CrawlState, kind: StepKind, found: set<string>, pushed: seq<string>)
    requires ResultsConsistent(s)
    requires forall u :: u in found ==> OndoUrlShape(u)
    ensures ResultsConsistent(Next(s, kind, found, ApiOnly(found), pushed))
  {
    NextKeepsApiWithinAll(s, kind, found, ApiOnly(found), pushed);
  }

  /** One iteration keeps the result sets consistent. */
  lemma SuccessorKeepsResultsConsistent(env: Env, maxDepth: int, s: CrawlState, pushed: seq<string>)
    requires ResultsConsistent(s)
    ensures ResultsConsistent(Successor(env, maxDepth, s, pushed))
  {
    if s.queue != [] {
      var text := env.fetch(s.queue[0].url);
      ExtractUrlsShape(text);
      NextKeepsResultsConsistent(s, KindOf(env, maxDepth, s), Found(text), pushed);
    }
  }

  /**
   * Without the filter on script sources, a script on any host is pushed:
   * the crawl leaves the ondo domains through `<script src>`.
   */
  lemma OffDomainScriptIsPushed(env: Env, maxDepth: int, s: CrawlState, r: string)
    requires KindOf(env, maxDepth, s) == Crawled
    requires var url := s.queue[0].url; r in env.srcs(env.fetch(url))
    requires var l := Resolve(env, s.queue[0].url, r); l !in s.visited && l != s.queue[0].url
    ensures Resolve(env, s.queue[0].url, r) in Pending(env, maxDepth, s)
  {
  }

  /**
   * Against 0.py on the same page: _0.py records and flags no more URLs,
   * discovers every link 0.py discovers, and discovers exactly the same
   * links when every script source resolves onto an ondo domain.
   */
  lemma ComparedWithCrawler0(env: Env, url: string, text: string)
    ensures Found(text) <= Crawler0.Found(env, url, text)
    ensures Flagged(text) <= Crawler0.Flagged(env, url, text)
    ensures Crawler0.NewLinks(env, url, text) <= NewLinks(env, url, text)
    ensures (forall r :: r in env.srcs(text) ==> OndoNetloc(env.netloc(Resolve(env, url, r))))
            ==> NewLinks(env, url, text) == Crawler0.NewLinks(env, url, text)
  {
    forall u | u in Flagged(text) ensures u in Crawler0.Flagged(env, url, text) {
      SlashApiImpliesApi(u);
    }
  }

  /** From the same state, _0.py pushes every link 0.py would push. */
  lemma PendingComparedWithCrawler0(env: Env, maxDepth: int, s: CrawlState)
    ensures Crawler0.Pending(env, maxDepth, s) <= Pending(env, maxDepth, s)
  {
    if KindOf(env, maxDepth, s) == Crawled {
      var url := s.queue[0].url;
      ComparedWithCrawler0(env, url, env.fetch(url));
    }
  }

  /** One worker of _0.py running alone over the shared crawl state. */
  class Crawler {
    const env: Env
    const maxDepth: int
    const frontier: TaskQueue
    var visited: set<string>
    var allUrls: set<string>
    var apiUrls: set<string>
    /** Every (url, depth) handed to `fetch_text`, in order. */
    ghost var fetched: seq<Entry>

    ghost function State(): CrawlState
      reads this, frontier
    {
      CrawlState(frontier.items, visited, allUrls, apiUrls)
    }

    /**
     * Between iterations: every task put is either queued or done, the
     * result sets are consistent, exactly the fetched urls are visited, no
     * url was fetched twice and none deeper than `max_depth`.
     */
    ghost predicate Valid()
      reads this, frontier
    {
      frontier.unfinished == |frontier.items|
      && ResultsConsistent(State())
      && visited == UrlsOf(fetched)
      && FetchedOnce(fetched)
      && forall k :: 0 <= k < |fetched| ==> fetched[k].depth <= maxDepth
    }

    /** The seeding in `crawl_domain`: empty sets and `(start_url, 0)` queued. */
    constructor (env: Env, startUrl: string, maxDepth: int)
      ensures Valid() && fresh(frontier)
      ensures this.env == env && this.maxDepth == maxDepth
      ensures State() == CrawlState([Entry(startUrl, 0)], {}, {}, {})
      ensures frontier.unfinished == 1 && fetched == []
    {
      var q := new TaskQueue();
      q.Put(Entry(startUrl, 0));
      this.env := env;
      this.maxDepth := maxDepth;
      frontier := q;
      visited, allUrls, apiUrls := {}, {}, {};
      fetched := [];
    }

    /** `all_urls.update(found)`, then `for u in found: if any(...): api_urls.add(u)`. */
    method Record(found: set<string>)
      modifies this
      ensures allUrls == old(allUrls) + found
      ensures apiUrls == old(apiUrls) + ApiOnly(found)
      ensures visited == old(visited) && fetched == old(fetched)
    {
      allUrls := allUrls + found;
      var rest := found;
      ghost var done: set<string> := {};
      while rest != {}
        invariant done + rest == found && done !! rest
        invariant allUrls == old(allUrls) + found
        invariant apiUrls == old(apiUrls) + ApiOnly(done)
        invariant visited == old(visited) && fetched == old(fetched)
        decreases rest
      {
        var u :| u in rest;
        ApiOnlyAdd(done, u);
        if IsSlashApiUrl(u) {
          apiUrls := apiUrls + {u};
        }
        rest := rest - {u};
        done := done + {u};
      }
    }

    /** `for link in new_links: if link not in visited: await queue.put((link, depth + 1))`. */
    method PushUnvisited(links: set<string>, depth: nat) returns (pushed: seq<string>)
      modifies frontier
      ensures IsEnumeration(pushed, set l | l in links && l !in visited)
      ensures frontier.items == old(frontier.items) + Children(pushed, depth)
      ensures frontier.unfinished == old(frontier.unfinished) + |pushed|
    {
      pushed := [];
      var rest := links;
      while rest != {}
        invariant rest <= links
        invariant IsEnumeration(pushed, set l | l in links - rest && l !in visited)
        invariant frontier.items == old(frontier.items) + Children(pushed, depth)
        invariant frontier.unfinished == old(frontier.unfinished) + |pushed|
        decreases rest
      {
        var link :| link in rest;
        assert link !in pushed;
        assert (set l | l in links - (rest - {link}) && l !in visited)
          == (set l | l in links - rest && l !in visited) + (if link !in visited then {link} else {});
        if link !in visited {
          frontier.Put(Entry(link, depth + 1));
          assert Children(pushed + [link], depth) == Children(pushed, depth) + [Entry(link, depth + 1)];
          pushed := pushed + [link];
        }
        rest := rest - {link};
      }
    }

    /**
     * The part of an iteration after the skip check: mark the url visited,
     * fetch it and, if text came back, record its absolute ondo URLs and push
     * its unvisited links one level deeper.
     */
    method Visit(e: Entry) returns (kind: StepKind, pushed: seq<string>)
      modifies this, frontier
      ensures var text := env.fetch(e.url);
        kind == (if text == "" then FetchFailed else Crawled)
        && visited == old(visited) + {e.url} && fetched == old(fetched) + [e]
        && (kind == FetchFailed ==>
              pushed == [] && allUrls == old(allUrls) && apiUrls == old(apiUrls)
              && frontier.items == old(frontier.items) && frontier.unfinished == old(frontier.unfinished))
        && (kind == Crawled ==>
              allUrls == old(allUrls) + Found(text)
              && apiUrls == old(apiUrls) + Flagged(text)
              && IsEnumeration(pushed, set l | l in NewLinks(env, e.url, text) && l !in old(visited) + {e.url})
              && frontier.items == old(frontier.items) + Children(pushed, e.depth)
              && frontier.unfinished == old(frontier.unfinished) + |pushed|)
    {
      visited := visited + {e.url};
      fetched := fetched + [e];
      var text := env.fetch(e.url);
      if text == "" {
        return FetchFailed, [];
      }
      var found := ExtractUrlsFromText(text);
      Record(found);
      var newLinks := ExtractInternalLinks(env, text, e.url);
      var scripts := ExtractScriptSrcs(env, text, e.url);
      newLinks := newLinks + scripts;
      pushed := PushUnvisited(newLinks, e.depth);
      kind := Crawled;
    }

    /**
     * One iteration of the worker loop of _0.py: pop an entry; skip it if it
     * was visited or lies too deep, otherwise visit it; mark the task done on
     * every path that popped an entry.
     */
    method Step() returns (kind: StepKind, pushed: seq<string>)
      requires Valid()
      modifies this, frontier
      ensures Valid()
      ensures kind == KindOf(env, maxDepth, old(State()))
      ensures IsEnumeration(pushed, Pending(env, maxDepth, old(State())))
      ensures State() == Successor(env, maxDepth, old(State()), pushed)
      ensures fetched == if kind == FetchFailed || kind == Crawled then old(fetched) + [old(frontier.items)[0]] else old(fetched)
    {
      ghost var s := State();
      var got := frontier.Get();
      if got.None? {
        return Idle, [];
      }
      var e := got.value;
      if e.url in visited || e.depth > maxDepth {
        var done := frontier.TaskDone();
        assert done;
        return Skipped, [];
      }
      UrlsOfAppend(fetched, e);
      FetchedOnceAppend(fetched, e);
      kind, pushed := Visit(e);
      var done := frontier.TaskDone();
      assert done;
      SuccessorKeepsResultsConsistent(env, maxDepth, s, pushed);
    }

    /**
     * `crawl_domain` with a single worker: run iterations until the queue
     * drains (`queue.join()` returns) or `budget` iterations have run.
     */
    method Crawl(budget: nat) returns (drained: bool)
      requires Valid()
      modifies this, frontier
      ensures Valid()
      ensures drained <==> frontier.Drained()
      ensures old(visited) <= visited && old(allUrls) <= allUrls && old(apiUrls) <= apiUrls
      ensures old(fetched) <= fetched
    {
      var n := budget;
      while n > 0 && frontier.items != []
        invariant Valid()
        invariant old(visited) <= visited && old(allUrls) <= allUrls && old(apiUrls) <= apiUrls
        invariant old(fetched) <= fetched
      {
        var _, _ := Step();
        n := n - 1;
      }
      drained := frontier.items == [];
    }
  }
}
