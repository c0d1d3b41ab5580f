/**
 * What the two crawler scripts share: the collaborators the crawl core
 * cannot see (network, HTML parser, URL library), the absolute-URL pattern
 * both compile, the netloc domain filter, the anchor-link extractor, and the
 * state one worker iteration acts on, with the iteration's effect written
 * once for both variants.
 */
module CrawlCore {
  import opened Maybe
  import opened Text
  import opened Scanner
  import opened Frontier

  /**
   * The crawl's collaborators, taken as given functions:
   * - fetch: `fetch_text`, the body of a url, or "" when the request failed;
   * - hrefs / srcs: the `href` of every `<a href>` and the `src` of every
   *   `<script src>` the HTML parser finds in a document, in document order;
   * - urljoin, scheme, netloc: `urllib.parse.urljoin(base, ref)` and the
   *   `scheme` and `netloc` fields of `urlparse(url)`.
   */
  datatype Env = Env(
    fetch: string -> string,
    hrefs: string -> seq<string>,
    srcs: string -> seq<string>,
    urljoin: (string, string) -> string,
    scheme: string -> string,
    netloc: string -> string)

  /**
   * `(https?://(?:ondo\.finance|ondo\.foundation)[^"'\s<>]+)` with IGNORECASE,
   * the same pattern in both scripts. `s?` is greedy, so the heads are tried
   * with the `s` first, each time in the alternation's order.
   */
  const OndoPattern := Pattern(
    ["https://" + "ondo.finance", "https://" + "ondo.foundation",
     "http://" + "ondo.finance", "http://" + "ondo.foundation"], 1)

  lemma OndoPatternWellFormed()
    ensures WellFormed(OndoPattern)
  {
    UrlCharsDelimiterFree("https://" + "ondo.finance");
    UrlCharsDelimiterFree("https://" + "ondo.foundation");
    UrlCharsDelimiterFree("http://" + "ondo.finance");
    UrlCharsDelimiterFree("http://" + "ondo.foundation");
  }

  /** `set(ONDO_PATTERN.findall(text))`: the absolute ondo URLs in a text. */
  function ExtractUrlsFromText(text: string): set<string>
  {
    OndoPatternWellFormed();
    FindAllSet(OndoPattern, text)
  }

  /** After the scheme: one of the two domains, then at least one more character. */
  predicate OndoHostThenMore(rest: string)
  {
    (FoldedPrefix(rest, "ondo.finance") && |rest| > 12)
    || (FoldedPrefix(rest, "ondo.foundation") && |rest| > 15)
  }

  /**
   * The shape of every absolute ondo URL the crawlers find: `http://` or
   * `https://`, then `ondo.finance` or `ondo.foundation` and at least one
   * more character, all compared without regard to case, and no quote,
   * whitespace or angle bracket anywhere.
   */
  predicate OndoUrlShape(u: string)
  {
    DelimiterFree(u)
    && ((FoldedPrefix(u, "http://") && OndoHostThenMore(u[7..]))
        || (FoldedPrefix(u, "https://") && OndoHostThenMore(u[8..])))
  }

  lemma SchemeThenHost(u: string, scheme: string, domain: string)
    requires FoldedPrefix(u, scheme + domain) && |u| > |scheme| + |domain|
    ensures FoldedPrefix(u, scheme)
    ensures FoldedPrefix(u[|scheme|..], domain) && |u[|scheme|..]| > |domain|
  {
    FoldedConcat(u, 0, scheme, domain);
    FoldedAtSlice(u, |scheme|, |u|, domain);
  }

  /** A delimiter-free string that starts with one of the heads and goes on has the ondo shape. */
  lemma HeadGivesShape(u: string, hi: nat)
    requires hi < |OndoPattern.heads|
    requires FoldedPrefix(u, OndoPattern.heads[hi]) && |u| > |OndoPattern.heads[hi]|
    requires DelimiterFree(u)
    ensures OndoUrlShape(u)
  {
    if hi == 0 {
      SchemeThenHost(u, "https://", "ondo.finance");
    } else if hi == 1 {
      SchemeThenHost(u, "https://", "ondo.foundation");
    } else if hi == 2 {
      SchemeThenHost(u, "http://", "ondo.finance");
    } else {
      SchemeThenHost(u, "http://", "ondo.foundation");
    }
  }

  /** The text of any match of the ondo pattern has the ondo shape. */
  lemma MatchGivesShape(text: string, s: nat, e: nat)
    requires MatchEnd(OndoPattern, text, s) == Some(e)
    ensures OndoUrlShape(text[s..e])
  {
    OndoPatternWellFormed();
    SpanShape(OndoPattern, text, s, e);
    var h :| h in OndoPattern.heads && FoldedPrefix(text[s..e], h) && e - s >= |h| + 1;
    var hi :| 0 <= hi < |OndoPattern.heads| && OndoPattern.heads[hi] == h;
    HeadGivesShape(text[s..e], hi);
  }

  /** Every URL `extract_urls_from_text` returns has the ondo absolute-URL shape. */
  lemma ExtractUrlsShape(text: string)
    ensures forall u :: u in ExtractUrlsFromText(text) ==> OndoUrlShape(u)
  {
    OndoPatternWellFormed();
    forall u | u in ExtractUrlsFromText(text) ensures OndoUrlShape(u) {
      FindAllSpan(OndoPattern, text, u);
      var s: nat, e: nat :| MatchEnd(OndoPattern, text, s) == Some(e) && u == text[s..e];
      MatchGivesShape(text, s, e);
    }
  }

  /** The netloc filter: `"ondo.finance" in netloc or "ondo.foundation" in netloc`. */
  predicate OndoNetloc(netloc: string)
  {
    Contains(netloc, "ondo.finance") || Contains(netloc, "ondo.foundation")
  }

  /** `urljoin(base, ref.strip())`. */
  function Resolve(env: Env, base: string, ref: string): string
  {
    env.urljoin(base, Trim(ref, IsPySpace))
  }

  /** The resolved references whose netloc passes the domain filter. */
  function InScopeLinks(env: Env, refs: seq<string>, base: string): set<string>
  {
    set r | r in refs && OndoNetloc(env.netloc(Resolve(env, base, r))) :: Resolve(env, base, r)
  }

  /** All resolved references, unfiltered. */
  function ResolvedLinks(env: Env, refs: seq<string>, base: string): set<string>
  {
    set r | r in refs :: Resolve(env, base, r)
  }

  /**
   * The loop both filtered extractors run: resolve each reference against
   * the page url and keep it when its netloc names an ondo domain.
   */
  method CollectInScope(env: Env, refs: seq<string>, base: string) returns (links: set<string>)
    ensures links == InScopeLinks(env, refs, base)
    ensures forall l :: l in links ==> OndoNetloc(env.netloc(l))
    ensures forall r :: r in refs && OndoNetloc(env.netloc(Resolve(env, base, r))) ==> Resolve(env, base, r) in links
  {
    links := {};
    for i := 0 to |refs|
      invariant links == InScopeLinks(env, refs[..i], base)
    {
      var absolute := Resolve(env, base, refs[i]);
      if OndoNetloc(env.netloc(absolute)) {
        links := links + {absolute};
      }
      assert refs[..i + 1] == refs[..i] + [refs[i]];
    }
    assert refs[..|refs|] == refs;
  }

  /** `extract_internal_links(html, base_url)`, identical in both scripts. */
  method ExtractInternalLinks(env: Env, html: string, base: string) returns (links: set<string>)
    ensures links == InScopeLinks(env, env.hrefs(html), base)
    ensures forall l :: l in links ==> OndoNetloc(env.netloc(l))
  {
    links := CollectInScope(env, env.hrefs(html), base);
  }

  /** The state a worker iteration reads and writes (the queue's counter is kept by the class). */
  datatype CrawlState = CrawlState(
    queue: seq<Entry>,
    visited: set<string>,
    allUrls: set<string>,
    apiUrls: set<string>)

  /** How one iteration of the worker loop ends. */
  datatype StepKind =
    | Idle         // the queue is empty: `queue.get()` would wait
    | Skipped      // the entry was visited already or lies too deep
    | FetchFailed  // the fetch returned no text
    | Crawled      // the page was fetched, scanned and its links queued

  function KindOf(env: Env, maxDepth: int, s: CrawlState): StepKind
  {
    if s.queue == [] then Idle
    else if s.queue[0].url in s.visited || s.queue[0].depth > maxDepth then Skipped
    else if env.fetch(s.queue[0].url) == "" then FetchFailed
    else Crawled
  }

  /** `xs` lists every element of `s` once, in some order (Python's set iteration order). */
  predicate IsEnumeration(xs: seq<string>, s: set<string>)
  {
    (forall i, j :: 0 <= i < j < |xs| ==> xs[i] != xs[j])
    && (forall x :: x in xs ==> x in s)
    && (forall x :: x in s ==> x in xs)
  }

  /** The entries `queue.put((link, depth + 1))` adds, in the order the links came. */
  function Children(links: seq<string>, depth: nat): seq<Entry>
  {
    seq(|links|, k requires 0 <= k < |links| => Entry(links[k], depth + 1))
  }

  /**
   * The state after one iteration, given the iteration's outcome, the URLs it
   * records, those of them it flags as API endpoints, and the order in which
   * it pushes the new links. Only a crawled page records or pushes anything.
   */
  function Next(s: CrawlState, kind: StepKind, found: set<string>, flagged: set<string>, pushed: seq<string>): CrawlState
  {
    if s.queue == [] then s
    else
      var e := s.queue[0];
      match kind
      case Idle => s
      case Skipped => s.(queue := s.queue[1..])
      case FetchFailed => s.(queue := s.queue[1..], visited := s.visited + {e.url})
      case Crawled =>
        CrawlState(s.queue[1..] + Children(pushed, e.depth), s.visited + {e.url},
                   s.allUrls + found, s.apiUrls + flagged)
  }

  /**
   * An iteration never removes anything: visited, all_urls and api_urls only
   * grow, and what was queued behind the popped entry stays queued in order.
   */
  lemma NextGrows(s: CrawlState, kind: StepKind, found: set<string>, flagged: set<string>, pushed: seq<string>)
    requires s.queue != []
    requires kind != Idle
    ensures var t := Next(s, kind, found, flagged, pushed);
      s.visited <= t.visited && s.allUrls <= t.allUrls && s.apiUrls <= t.apiUrls
      && t.queue[..|s.queue| - 1] == s.queue[1..]
  {
    var t := Next(s, kind, found, flagged, pushed);
    if kind == Crawled {
      assert t.queue[..|s.queue| - 1] == (s.queue[1..] + Children(pushed, s.queue[0].depth))[..|s.queue| - 1];
    }
  }

  /** `api_urls ⊆ all_urls` survives an iteration that flags only URLs it records. */
  lemma NextKeepsApiWithinAll(s: CrawlState, kind: StepKind, found: set<string>, flagged: set<string>, pushed: seq<string>)
    requires s.apiUrls <= s.allUrls
    requires flagged <= found
    ensures Next(s, kind, found, flagged, pushed).apiUrls <= Next(s, kind, found, flagged, pushed).allUrls
  {
  }

  /**
   * The skip path and the failed fetch leave the result sets alone and push
   * nothing; only the failed fetch marks the url visited.
   */
  lemma NextWithoutText(s: CrawlState, kind: StepKind, found: set<string>, flagged: set<string>, pushed: seq<string>)
    requires s.queue != []
    requires kind == Skipped || kind == FetchFailed
    ensures var t := Next(s, kind, found, flagged, pushed);
      t.queue == s.queue[1..] && t.allUrls == s.allUrls && t.apiUrls == s.apiUrls
      && t.visited == (if kind == Skipped then s.visited else s.visited + {s.queue[0].url})
  {
  }

  /**
   * Every entry a crawled page adds to the queue is one of the pushed links,
   * one level deeper than the page.
   */
  lemma NextPushesOneDeeper(s: CrawlState, found: set<string>, flagged: set<string>, pushed: seq<string>)
    requires s.queue != []
    ensures var t := Next(s, Crawled, found, flagged, pushed);
      |t.queue| == |s.queue| - 1 + |pushed|
      && forall k :: |s.queue| - 1 <= k < |t.queue| ==>
           t.queue[k].depth == s.queue[0].depth + 1 && t.queue[k].url in pushed
  {
    var t := Next(s, Crawled, found, flagged, pushed);
    var cs := Children(pushed, s.queue[0].depth);
    forall k | |s.queue| - 1 <= k < |t.queue|
      ensures t.queue[k].depth == s.queue[0].depth + 1 && t.queue[k].url in pushed
    {
      assert t.queue[k] == cs[k - (|s.queue| - 1)];
    }
  }

  /** The urls of a fetch log. */
  function UrlsOf(log: seq<Entry>): set<string>
  {
    set k | 0 <= k < |log| :: log[k].url
  }

  lemma UrlsOfAppend(log: seq<Entry>, e: Entry)
    ensures UrlsOf(log + [e]) == UrlsOf(log) + {e.url}
  {
    var log' := log + [e];
    assert log'[|log|] == e;
    forall u | u in UrlsOf(log) ensures u in UrlsOf(log') {
      var k :| 0 <= k < |log| && log[k].url == u;
      assert log'[k] == log[k];
    }
  }

  /** No url occurs twice in the log. */
  predicate FetchedOnce(log: seq<Entry>)
  {
    forall i, j :: 0 <= i < j < |log| ==> log[i].url != log[j].url
  }

  /** Fetching a url that is not in the log keeps every url fetched at most once. */
  lemma FetchedOnceAppend(log: seq<Entry>, e: Entry)
    requires FetchedOnce(log) && e.url !in UrlsOf(log)
    ensures FetchedOnce(log + [e])
  {
    var log' := log + [e];
    forall i, j | 0 <= i < j < |log'| ensures log'[i].url != log'[j].url {
      if j == |log| {
        assert log'[i] == log[i];
        assert log[i].url in UrlsOf(log);
      } else {
        assert log'[i] == log[i] && log'[j] == log[j];
      }
    }
  }
}
