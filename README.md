# Ondo endpoint crawler and console-error classifier, modelled in Dafny

This project models two parts of a small repository.

- **The crawl step of the two crawler scripts.** `0.py` and `_0.py` both crawl the ondo.finance and ondo.foundation sites. A worker takes a `(url, depth)` entry from a shared queue and skips it if it was already visited or lies deeper than `max_depth`. Otherwise it marks the url visited and fetches it. In the text it gets back, it looks for URLs with IGNORECASE regexes (two in `0.py`, one in `_0.py`) and records them in `all_urls`. URLs that look like API endpoints also go into `api_urls`. Finally it queues the page's links one level deeper.
  - `0.py` also finds relative API paths (`/api/...`, `/public/v1/...`) and rebuilds them on the page's own `scheme://netloc`. It flags a URL when it contains a bare segment such as `api`, and it filters script sources to ondo domains.
  - `_0.py` records only absolute ondo URLs. It flags a URL only on a slash-delimited segment such as `/api/`, and it queues every script source unfiltered.
- **The console-error classifier `error-check.js`.** It splits pasted console output into lines. Each line gets a type from the first marker it contains: `SyntaxError`, then `ChunkLoadError`, then `TypeError`. Lines that are blank once trimmed are dropped.

The modules follow the program's structure:

- `Text` (text.dfy) holds character classes and string operations:
  - ASCII case folding;
  - Python's and JavaScript's whitespace sets;
  - substring search (`in` / `includes`);
  - `strip()` / `trim()`.
- `Scanner` (scanner.dfy) models `re.findall` for patterns of the form `(?:H1|H2|…)[^"'\s<>]{n,}`. It is a leftmost, non-overlapping scan whose heads are tried in order. The proofs cover the shape of every match and show that no match start is skipped.
- `Frontier` (frontier.dfy) models the `asyncio.Queue` as a class holding the entries and the count of unfinished tasks.
- `CrawlCore` (crawl_core.dfy) holds what both scripts share:
  - the collaborators (`Env`);
  - the absolute-URL pattern and the proof of its shape;
  - the netloc filter and the anchor extractor;
  - the crawl state and the effect of one worker iteration (`Next`).
- `Crawler0` (crawler0.dfy) and `Crawler1` (crawler1.dfy) cover the two scripts. Each has its extractors and classifier, a specification `Successor` of one iteration, and a `Crawler` class. In that class, `Step` runs one iteration of the worker loop on the shared sets and queue. It is proved to produce exactly `Successor` of the old state and to keep the class invariant. The invariant says:
  - `api_urls ⊆ all_urls`;
  - every API URL is classified as such;
  - the visited set is exactly the set of fetched urls;
  - no url is fetched twice;
  - none is fetched deeper than `max_depth`;
  - every task put is either still queued or marked done.
- `ErrorCheck` (error_check.dfy) models the split → map → filter pipeline, with the split's round trip and the exact list the filter keeps.

Collaborators the code calls but does not contain are fields of `CrawlCore.Env`, and the model takes them as given functions:

- the network (`fetch_text`, where `""` stands for a failed fetch);
- the HTML parser (the `href`s and `src`s it finds, in document order);
- `urljoin`, and the `scheme` and `netloc` fields of `urlparse`.

Python's set iteration order is an out-parameter of `Step`: the order in which links are pushed. Its contract says that this order lists each pending link exactly once.

Three behaviours of the code are easy to miss, and the model states each of them:

- The docstring of `extract_script_srcs` in `0.py` says script sources are kept only on ondo.finance or ondo.foundation (0.py:76-78), and its loop checks the netloc (0.py:84-87). The function of the same name in `_0.py` has no such check (_0.py:59-67), so that crawl can leave the ondo domains through a `<script src>` (`Crawler1.OffDomainScriptIsPushed`).
- `0.py` records relative API paths joined onto the crawled page's own `scheme://netloc` (0.py:147-154). No domain check is applied to the joined URL (`Crawler0.SuccessorRecords`).
- Both scripts flag a URL only right after recording it (0.py:142-154, _0.py:98-103). So with one worker, `api_urls ⊆ all_urls` holds after every iteration (`Crawler0.SuccessorKeepsResultsConsistent`, `Crawler1.SuccessorKeepsResultsConsistent`).

## Model

| member | source | states |
|---|---|---|
| Text.TrimStartMeaning | 0.py:68 | `strip()`'s leading half removes exactly the longest run of leading whitespace; what remains starts with a non-space |
| Text.TrimEndMeaning | 0.py:68 | the trailing half removes exactly the longest run of trailing whitespace; what remains ends with a non-space |
| Text.TrimEmpty | error-check.js:17 | a trimmed line is empty exactly when every character is whitespace |
| Text.IsPySpace | 0.py:68 | the characters Python's `str.isspace` accepts, which are what `\s` in a str pattern and `strip()` treat as whitespace; `TrimStartMeaning` and `TrimEndMeaning` state what `strip()` removes with it |
| Text.IsJsSpace | error-check.js:17 | the characters JavaScript's `trim()` removes; `BlankMeansWhitespace` states which lines the filter drops with it |
| Text.IsDelimiter | 0.py:34 | the characters `[^"'\s<>]` excludes; `RunEndMaximal` and `SpanShape` state that a match holds none of them and stops at one |
| Text.Lower | 0.py:35 | IGNORECASE's folding of one character, ASCII letters only; `FoldedConcat` and `FoldedAtDelimiterFree` state its properties, and the "## Left out" line on `CrawlCore.ExtractUrlsShape` names what it does not fold |
| Text.FoldedAt | 0.py:45 | a literal matching at a position of the text with IGNORECASE; `FoldedConcat` and `FoldedAtSlice` state how matches of concatenations and slices relate |
| Text.Contains | 0.py:144 | Python's `sub in s` and JavaScript's `s.includes(sub)`; `ContainsPiece` and `MissingChar` state its properties |
| Text.Trim | 0.py:68 | `strip()` / `trim()` with the given whitespace set; the result is never longer than the input, and what it removes is stated by `TrimStartMeaning` and `TrimEndMeaning` |
| Text.ContainsPiece | _0.py:102 | a string containing `outer` contains every slice of `outer` |
| Text.MissingChar | 0.py:144 | a string lacking any one character of `sub` does not contain `sub` |
| Text.FoldedAtDelimiterFree | 0.py:34 | text matching a delimiter-free head case-insensitively has no delimiter there |
| Scanner.RunEndMaximal | 0.py:34 | the `[^"'\s<>]` run is delimiter-free and greedy: it stops only at a delimiter or the end |
| Scanner.RunEnd | 0.py:34 | where the greedy `[^"'\s<>]` run starting at a position ends; `RunEndMaximal` states that it is delimiter-free and maximal |
| Scanner.FirstHead | 0.py:34 | the alternation tries the heads in order: the result matches and no earlier head does; none only if no head matches |
| Scanner.HeadMatchesAt | 0.py:34 | one alternative of the alternation matching, case-insensitively, at a position and followed by at least the minimum run; `FirstHead` and `MatchEndMeaning` use it to state which alternative wins |
| Scanner.MatchEndMeaning | 0.py:34 | a match starts at `i` exactly when some head and its minimum run match there; it ends where the run ends |
| Scanner.MatchEnd | 0.py:34 | where the pattern's match starting at a position ends, if one does; `MatchEndMeaning` states it |
| Scanner.Scan | 0.py:52 | the reported spans are matches, lie in the text, and are ordered and disjoint |
| Scanner.ScanLeftmost | 0.py:52 | every position where a match starts is inside a reported span (no match is skipped) |
| Scanner.SpansLeftmost | 0.py:52 | the same, for a pattern over a whole text |
| Scanner.Spans | 0.py:52 | `findall`'s spans are ordered, disjoint matches within the text |
| Scanner.SpanShape | 0.py:33-36 | a match starts with a head, has at least `minRun` more characters, has no delimiter, and is followed by a delimiter or the end |
| Scanner.FindAllSpan | 0.py:52 | every string `findall` returns is the text of a match |
| Scanner.FindAll | 0.py:52 | `pattern.findall(text)`: the text of each span `Spans` reports, in order, so by `FindAllSpan` every string is a match |
| Scanner.FindAllSet | 0.py:52 | `set(pattern.findall(text))`: the strings `FindAll` returns, as a set |
| Frontier.TaskQueue.constructor | 0.py:176 | a new queue is empty, with no unfinished task |
| Frontier.TaskQueue.Put | 0.py:164 | `put` appends and counts one more unfinished task |
| Frontier.TaskQueue.Get | 0.py:119 | `get` removes the oldest entry and returns it; on an empty queue it returns none and changes nothing |
| Frontier.TaskQueue.TaskDone | 0.py:166 | `task_done` lowers the count; with nothing unfinished it fails (ValueError) and changes nothing |
| Frontier.TaskQueue.Drained | 0.py:194 | the condition `queue.join()` waits for, no unfinished task; `Crawler.Crawl` returns drained exactly when it holds |
| CrawlCore.OndoPatternWellFormed | 0.py:33-36 | the four heads of the absolute pattern (`https` before `http`, `ondo.finance` before `ondo.foundation`) are delimiter-free |
| CrawlCore.OndoPattern | 0.py:33-36 | `ONDO_ABSOLUTE_PATTERN` (the same as `ONDO_PATTERN` at _0.py:38-41) as four ordered heads and a minimum run of one; `OndoPatternWellFormed` and `MatchGivesShape` state its properties |
| CrawlCore.HeadGivesShape | 0.py:34 | text that starts with one of the heads and goes on has the ondo URL shape |
| CrawlCore.MatchGivesShape | 0.py:33-36 | every match of the absolute pattern has the ondo URL shape |
| CrawlCore.ExtractUrlsFromText | 0.py:48-52 | `extract_urls_from_text` (the same in _0.py:43-45): the set of absolute-pattern matches, whose shape `ExtractUrlsShape` states |
| CrawlCore.ExtractUrlsShape | 0.py:48-52 | every URL `extract_urls_from_text` returns starts, case-insensitively, with `http://` or `https://`, then `ondo.finance` or `ondo.foundation`, then at least one more character; it has no quote, whitespace, `<` or `>` |
| CrawlCore.SchemeThenHost | 0.py:34 | a match of scheme + domain splits into the scheme and then the domain |
| CrawlCore.Resolve | 0.py:68-69 | `urljoin(base, ref.strip())`, the stripping being Python's `str.strip` |
| CrawlCore.InScopeLinks | 0.py:67-72 | the resolved references whose netloc contains `ondo.finance` or `ondo.foundation`; `CollectInScope` is proved to compute it |
| CrawlCore.ResolvedLinks | _0.py:63-66 | every script source resolved against the page url, unfiltered; `Crawler1.ExtractScriptSrcs` is proved to compute it and `OffDomainScriptIsPushed` states its consequence |
| CrawlCore.OndoNetloc | 0.py:71 | the netloc filter `"ondo.finance" in netloc or "ondo.foundation" in netloc` (also 0.py:86 and _0.py:55); `CollectInScope` and `SuccessorPushes` state that every kept or pushed link passes it |
| CrawlCore.CollectInScope | 0.py:67-73 | the loop returns exactly the stripped, resolved references whose netloc contains an ondo domain |
| CrawlCore.ExtractInternalLinks | 0.py:60-73 | `extract_internal_links` returns exactly the in-scope resolved anchors, so every one is on an ondo netloc |
| CrawlCore.Children | 0.py:162-164 | the entries `queue.put((link, depth + 1))` adds, in push order; `Crawler.PushUnvisited`, `NextPushesOneDeeper` and `SuccessorPushes` state that they go at depth + 1, in order |
| CrawlCore.KindOf | 0.py:117-133 | how an iteration ends: idle on an empty queue, skipped when visited or too deep, a failed fetch on an empty text, otherwise a crawl |
| CrawlCore.Next | 0.py:117-166 | the state after an iteration: the entry is popped; a fetch marks the url visited; a crawl also records and flags URLs and queues the pushed links one deeper; its properties are `NextGrows`, `NextKeepsApiWithinAll`, `NextWithoutText` and `NextPushesOneDeeper` |
| CrawlCore.NextGrows | 0.py:117-166 | an iteration only grows `visited`, `all_urls` and `api_urls`; the rest of the queue stays in order |
| CrawlCore.NextKeepsApiWithinAll | 0.py:142-154 | flagging only recorded URLs keeps `api_urls ⊆ all_urls` |
| CrawlCore.NextWithoutText | 0.py:123-133 | a skip and a failed fetch push nothing and leave the results alone; only the failed fetch marks the url visited |
| CrawlCore.NextPushesOneDeeper | 0.py:162-164 | every entry a crawled page adds is one of its pushed links at parent depth + 1 |
| CrawlCore.UrlsOfAppend | 0.py:127 | logging one more fetch adds exactly its url to the fetched urls |
| CrawlCore.FetchedOnceAppend | 0.py:123-127 | fetching a url not yet fetched keeps every url fetched at most once |
| Crawler0.SegmentPatternWellFormed | 0.py:43-46 | the four segment heads are delimiter-free |
| Crawler0.ApiSegments | 0.py:42 | `API_SEGMENTS`, the four bare segments the classifier looks for; `CaseVariantIsNotFlagged` and `SubstringIsEnough` state how they are matched |
| Crawler0.SegmentPattern | 0.py:43-46 | `SEGMENT_PATTERN` as four ordered `/`-segment heads and a minimum run of zero; `SegmentPatternWellFormed` and `SegmentMatchShape` state its properties |
| Crawler0.ExtractRelativeApiPaths | 0.py:54-58 | `extract_relative_api_paths`: the set of segment-pattern matches, whose shape `ExtractRelativeApiPathsShape` states |
| Crawler0.SlashThenSegment | 0.py:44 | a match of `/` + segment starts with `/` followed by the segment |
| Crawler0.SegmentHeadGivesShape | 0.py:44 | text starting with a segment head has the relative API path shape |
| Crawler0.SegmentMatchShape | 0.py:43-46 | every match of the segment pattern has the relative API path shape |
| Crawler0.ExtractRelativeApiPathsShape | 0.py:54-58 | every path `extract_relative_api_paths` returns starts with `/` and then, case-insensitively, one of `public/v1`, `api`, `query`, `submit`; it has no quote, whitespace, `<` or `>` |
| Crawler0.CaseVariantIsFound | 0.py:43-46 | the scan ignores case: `/API` followed by accepted characters is found whole |
| Crawler0.IsApiUrl | 0.py:144 | `any(seg in url for seg in API_SEGMENTS)`, a case-sensitive substring test; `CaseVariantIsNotFlagged` and `SubstringIsEnough` show its two surprises |
| Crawler0.CaseVariantIsNotFlagged | 0.py:144-153 | the classifier does not ignore case: `https://ondo.finance/API/x` holds none of `API_SEGMENTS` |
| Crawler0.CaseVariantRecordedNotFlagged | 0.py:136-154 | a crawled page whose text is `/API/x`, on an origin that joins it into `https://ondo.finance/API/x`, puts that URL in `all_urls` and adds it to `api_urls` only if it was there already |
| Crawler0.SubstringIsEnough | 0.py:144 | the classifier matches substrings, not segments: `/capital` is flagged |
| Crawler0.ExtractScriptSrcs | 0.py:75-88 | `extract_script_srcs` returns exactly the in-scope resolved script sources, all on an ondo netloc |
| Crawler0.Origin | 0.py:148-149 | `f"{parsed.scheme}://{parsed.netloc}"` of the crawled page's url |
| Crawler0.JoinAll | 0.py:150-151 | `urljoin(base, rel_path)` for every relative path; `Crawler.RecordRelative` is proved to add exactly these |
| Crawler0.Rebuilt | 0.py:147-151 | the relative paths joined onto the crawled page's origin; `SuccessorRecords` states that every new non-absolute URL is one of these |
| Crawler0.Found | 0.py:136-151 | the URLs a crawled page adds to `all_urls`, its absolute matches plus its rebuilt relative paths; `SuccessorRecords` states that all of them are recorded |
| Crawler0.ApiOnly | 0.py:144 | the URLs of a batch that contain an `API_SEGMENTS` entry; `ApiOnlyAdd` and `ApiOnlyUnion` state how it grows |
| Crawler0.Flagged | 0.py:142-154 | the URLs a crawled page adds to `api_urls`; `SuccessorRecords` states that a found URL is flagged iff it contains a segment |
| Crawler0.NewLinks | 0.py:157-159 | the union of `extract_internal_links(...)` and `extract_script_srcs(...)`; `SuccessorPushes` states that they are all on an ondo netloc |
| Crawler0.Pending | 0.py:162-163 | the new links not yet visited; `Crawler.Step` pushes an enumeration of exactly these, and `SuccessorPushes` states where they go |
| Crawler0.Successor | 0.py:117-166 | one iteration of 0.py's worker as `Next` with 0.py's found and flagged URLs; `Crawler.Step` is proved to compute it |
| Crawler0.ApiOnlyUnion | 0.py:142-154 | classifying two batches of URLs flags the union of what each batch flags |
| Crawler0.SuccessorOfVisit | 0.py:127-164 | once past the skip check, an iteration ends as a failed fetch or as a crawl that records the found URLs and pushes the pending links |
| Crawler0.NextKeepsResultsConsistent | 0.py:142-154 | recording found URLs and flagging those with a segment keeps `api_urls ⊆ all_urls` and the classification |
| Crawler0.SuccessorKeepsResultsConsistent | 0.py:117-166 | one iteration keeps `api_urls ⊆ all_urls`, and every API URL contains an `API_SEGMENTS` entry |
| Crawler0.SuccessorRecords | 0.py:136-154 | a found URL is flagged iff it contains a segment; every new URL is an ondo URL from the text or a relative API path of the text joined on the page's origin |
| Crawler0.SuccessorPushes | 0.py:156-164 | pushed links are unvisited, on an ondo netloc, and queued at parent depth + 1 |
| Crawler0.Crawler.constructor | 0.py:172-177 | the crawl starts with empty sets and `(start_url, 0)` queued, with one unfinished task |
| Crawler0.Crawler.RecordAbsolute | 0.py:142-145 | adds every absolute match to `all_urls`, and to `api_urls` exactly those with a segment |
| Crawler0.Crawler.RecordRelative | 0.py:147-154 | adds `urljoin(base, rel)` for every relative match to `all_urls`, and to `api_urls` exactly those with a segment |
| Crawler0.Crawler.PushUnvisited | 0.py:162-164 | pushes each unvisited link once, at depth + 1, raising the unfinished count by the number pushed |
| Crawler0.Crawler.Visit | 0.py:127-164 | marks the url visited before the fetch; a failed fetch changes nothing else; a crawl records exactly the found and flagged URLs and pushes the pending links |
| Crawler0.Crawler.Step | 0.py:117-166 | one loop iteration yields exactly `Successor` of the old state, keeps the invariant, and marks the popped task done on every path that popped an entry |
| Crawler0.Crawler.Crawl | 0.py:168-194 | running iterations keeps the invariant and only grows the results and the fetch log; it returns drained exactly when no task is unfinished |
| Crawler1.SlashApiImpliesApi | _0.py:101-103 | a URL _0.py flags also contains the bare segment, so 0.py would flag it too |
| Crawler1.IsSlashApiUrl | _0.py:102 | the inline test for `/public/v1/`, `/api/`, `/query/` or `/submit/` as a case-sensitive substring |
| Crawler1.SlashApiSegments | _0.py:102 | the four slash-delimited segments of _0.py's inline test; `SlashApiImpliesApi` and `ApiWithoutSlashes` relate them to 0.py's |
| Crawler1.ApiOnly | _0.py:101-103 | the URLs of a batch that contain a slash-delimited segment; `Crawler.Record` is proved to flag exactly these |
| Crawler1.Found | _0.py:98-99 | the absolute ondo matches a crawled page adds to `all_urls`; `SuccessorKeepsResultsConsistent` states their ondo shape and `ComparedWithCrawler0` relates them to 0.py's |
| Crawler1.Flagged | _0.py:100-103 | the found URLs with a slash-delimited segment; `ComparedWithCrawler0` states that 0.py flags them too |
| Crawler1.NewLinks | _0.py:106-107 | the in-scope anchors plus every resolved script source; `ComparedWithCrawler0` relates them to 0.py's links |
| Crawler1.Pending | _0.py:108-110 | the new links not yet visited; `OffDomainScriptIsPushed` states that an off-domain script source is among them |
| Crawler1.ContainsBetweenSlashes | _0.py:102 | containing `/seg/` implies containing `seg` |
| Crawler1.ApiWithoutSlashes | _0.py:102 | the converse fails: `/apix` is flagged by 0.py's rule but not by _0.py's |
| Crawler1.ExtractScriptSrcs | _0.py:59-67 | `extract_script_srcs` returns every resolved script source, with no domain filter |
| Crawler1.Successor | _0.py:82-111 | one iteration of _0.py's worker as `Next` with _0.py's found and flagged URLs; `Crawler.Step` is proved to compute it |
| Crawler1.NextKeepsResultsConsistent | _0.py:98-103 | recording ondo-shaped matches and flagging those with a slash segment keeps the invariant |
| Crawler1.SuccessorKeepsResultsConsistent | _0.py:82-111 | one iteration keeps `api_urls ⊆ all_urls`, every API URL has a slash segment, and every recorded URL has the ondo URL shape |
| Crawler1.OffDomainScriptIsPushed | _0.py:106-110 | any unvisited script source is pushed, whatever its host |
| Crawler1.ComparedWithCrawler0 | _0.py:97-107 | on the same page, _0.py records and flags no more than 0.py, discovers every link 0.py discovers, and discovers the same links when all script sources are on ondo netlocs |
| Crawler1.PendingComparedWithCrawler0 | _0.py:106-110 | from the same state, every link 0.py would push is pushed by _0.py too |
| Crawler1.Crawler.constructor | _0.py:115-119 | the crawl starts with empty sets and `(start_url, 0)` queued |
| Crawler1.Crawler.Record | _0.py:98-103 | `all_urls` gains exactly the matches, and `api_urls` exactly those with a slash segment |
| Crawler1.Crawler.PushUnvisited | _0.py:108-110 | pushes each unvisited link once, at depth + 1 |
| Crawler1.Crawler.Visit | _0.py:90-110 | marks the url visited before the fetch; a failed fetch changes nothing else; a crawl records the matches and pushes the pending links |
| Crawler1.Crawler.Step | _0.py:82-111 | one loop iteration yields exactly `Successor` of the old state, keeps the invariant, and marks the task done on every path that popped an entry |
| Crawler1.Crawler.Crawl | _0.py:113-127 | running iterations keeps the invariant and only grows the results; drained exactly when no task is unfinished |
| ErrorCheck.Split | error-check.js:5 | `split('\n')` gives one more piece than there are newlines, none containing a newline |
| ErrorCheck.JoinSplit | error-check.js:5 | joining the pieces with `'\n'` gives back the input |
| ErrorCheck.SplitJoin | error-check.js:5 | newline-free lines, once joined, split back into the same lines |
| ErrorCheck.SplitPlainSuffix | error-check.js:5 | text after the last newline becomes the last piece |
| ErrorCheck.SplitPlain | error-check.js:5 | a text without a newline is one line |
| ErrorCheck.TypeNamesDistinct | error-check.js:8-16 | the four `type` strings are pairwise distinct |
| ErrorCheck.TypeName | error-check.js:8-16 | the `type` string of each error kind; `TypeNamesDistinct` states that the four are distinct |
| ErrorCheck.Classify | error-check.js:6-16 | each entry carries the original, untrimmed line |
| ErrorCheck.ClassifyPrecedence | error-check.js:7-16 | the type is `syntax` iff SyntaxError occurs; `chunk-load` iff ChunkLoadError occurs and SyntaxError does not; `type` iff only TypeError of the three occurs; `unknown` iff none does |
| ErrorCheck.BlankMeansWhitespace | error-check.js:17 | a line is dropped exactly when it is entirely JavaScript whitespace |
| ErrorCheck.Blank | error-check.js:17 | the filter's falsy case, `x.line.trim()` empty; `BlankMeansWhitespace` states it is an all-whitespace line |
| ErrorCheck.DropBlank | error-check.js:17 | `filter(x => x.line.trim())`; `DropBlankClassified` and `AnalyzeMeaning` state what it keeps |
| ErrorCheck.ClassifyAll | error-check.js:6-16 | `map(classify)` over the lines; `DropBlankClassified` and `AnalyzeMeaning` state the result |
| ErrorCheck.Positions | error-check.js:17 | the kept positions are increasing and are exactly those that pass the filter |
| ErrorCheck.DropBlankClassified | error-check.js:6-17 | filtering after mapping leaves one entry per non-blank line, in order, each being that line classified |
| ErrorCheck.Analyze | error-check.js:5-17 | the whole split → map → filter pipeline; `AnalyzeMeaning` states what it returns |
| ErrorCheck.AnalyzeMeaning | error-check.js:5-17 | the output has one entry per non-blank line of the input, in the order of the lines, each with its untrimmed line and its type |

## Left out

- Concurrency: the asyncio workers, `queue.join()` blocking, task cancellation, `gather` and the uvloop install (0.py:168-202, _0.py:113-131). The model runs a single worker, sequentially. Interleavings of several workers are not modelled.
- Crawler0.Crawler.Crawl: the crawl runs for at most `budget` iterations, because termination of the whole crawl is not proved. The contract says only whether the queue drained.
- Crawler1.Crawler.Crawl: bounded by `budget` in the same way.
- `fetch_text` (0.py:90-98, _0.py:69-77) is network I/O. It is the given function `Env.fetch`, with `""` for a failed or empty response.
- HTML parsing by BeautifulSoup/lxml (0.py:65-67, 80-82, _0.py:49-51, 61-63) is a foreign library. The `href` and `src` attribute lists are given functions of the page text.
- Crawler0.Crawler.Step: `Env.urljoin`, `Env.scheme` and `Env.netloc` are total, so an iteration of the model never raises. In `0.py`, `urljoin` and `urlparse` raise ValueError on a netloc with an unbalanced bracket, such as `<a href="http://[x">` (0.py:69-70, 84-85, 148, 151). The worker catches only CancelledError (0.py:118-121), so it dies without calling `task_done` (0.py:166), and `queue.join()` (0.py:194) never returns. The model's promise that every popped task is marked done holds only when these calls do not raise.
- Crawler1.Crawler.Step: the same, for `_0.py`. `urljoin` and `urlparse` raise at _0.py:53-54 and 65, the worker catches only CancelledError (_0.py:83-86), `task_done` (_0.py:111) is skipped, and `queue.join()` (_0.py:127) never returns.
- `urljoin` and `urlparse` are given functions. Reference resolution per section 5.2 of RFC 3986 is not modelled, so properties of joined URLs beyond "they are the join of X and Y" are not stated.
- CrawlCore.ExtractUrlsShape: IGNORECASE is modelled with ASCII case folding only. Python's str patterns also match four non-ASCII letters against ASCII ones: U+0130 (capital I with dot above) and U+0131 (dotless i) match `i`, U+017F (long s) matches `s`, and U+212A (Kelvin sign) matches `k`. Every head contains an `i` and the scheme an `s`, so a URL such as `https://ondo.fınance/x` (with U+0131) is found by the scripts and not by the model.
- Crawler0.ExtractRelativeApiPathsShape: ASCII case folding only, for the same reason.
- `findall`'s list order is modelled (`Scanner.FindAll`), but both scripts turn it into a set, so only the set is used.
- `main` (0.py:204-232, _0.py:133-162) is left out: argument parsing, the clock, the timestamped report file and printing are I/O.
- The `print` logging inside `worker` and `fetch_text` is I/O.
- error-check.js:2 and :19 are left out: the placeholder input and the `console.log`. The pipeline is modelled over any input string.
- The other JavaScript files are out of scope. They are browser monkey-patching, environment probes, a build validator and static configuration.
