/**
 * A model of `re.findall` for the two patterns the crawlers compile with
 * re.IGNORECASE. Each pattern has the form `(?:H1|H2|...)[^"'\s<>]{minRun,}`:
 * an ordered list of literal heads, tried in order and compared case-
 * insensitively, then a greedy run of non-delimiter characters that must be
 * at least `minRun` long. The scan is leftmost and non-overlapping: after a
 * match the search resumes where it ended, otherwise one character later.
 */
module Scanner {
  import opened Maybe
  import opened Text

  datatype Pattern = Pattern(heads: seq<string>, minRun: nat)

  /** Heads are non-empty (so a match is never empty) and contain no delimiter. */
  predicate WellFormed(p: Pattern)
  {
    forall h :: h in p.heads ==> |h| > 0 && DelimiterFree(h)
  }

  /** End of the longest run of non-delimiter characters starting at `j`. */
  function RunEnd(text: string, j: nat): (e: nat)
    requires j <= |text|
    ensures j <= e <= |text|
    decreases |text| - j
  {
    if j == |text| || IsDelimiter(text[j]) then j else RunEnd(text, j + 1)
  }

  /** The run is delimiter-free and maximal: it stops at a delimiter or at the end. */
  lemma {:induction false} RunEndMaximal(text: string, j: nat)
    requires j <= |text|
    ensures forall k :: j <= k < RunEnd(text, j) ==> !IsDelimiter(text[k])
    ensures RunEnd(text, j) == |text| || IsDelimiter(text[RunEnd(text, j)])
    decreases |text| - j
  {
    if j < |text| && !IsDelimiter(text[j]) {
      RunEndMaximal(text, j + 1);
    }
  }

  /** Head `h` followed by at least `minRun` non-delimiters occurs at `i`. */
  predicate HeadMatchesAt(h: string, minRun: nat, text: string, i: nat)
  {
    FoldedAt(text, i, h) && i + |h| + minRun <= RunEnd(text, i + |h|)
  }

  /** Index of the first head, in the pattern's order, that matches at `i`. */
  function FirstHead(heads: seq<string>, minRun: nat, text: string, i: nat): (r: Option<nat>)
    ensures r.Some? ==> r.value < |heads| && HeadMatchesAt(heads[r.value], minRun, text, i)
    ensures r.Some? ==> forall k :: 0 <= k < r.value ==> !HeadMatchesAt(heads[k], minRun, text, i)
    ensures r.None? <==> forall k :: 0 <= k < |heads| ==> !HeadMatchesAt(heads[k], minRun, text, i)
  {
    if heads == [] then None
    else if HeadMatchesAt(heads[0], minRun, text, i) then Some(0)
    else match FirstHead(heads[1..], minRun, text, i)
      case None => None
      case Some(k) => Some(k + 1)
  }

  /** Where the match starting at `i` ends, if one starts there. */
  function MatchEnd(p: Pattern, text: string, i: nat): (r: Option<nat>)
    ensures WellFormed(p) && r.Some? ==> i < r.value <= |text|
  {
    match FirstHead(p.heads, p.minRun, text, i)
    case None => None
    case Some(k) =>
      assert p.heads[k] in p.heads;
      Some(RunEnd(text, i + |p.heads[k]|))
  }

  /**
   * A match starts at `i` exactly when one of the heads matches there, and it
   * runs to the end of the non-delimiter run after that head.
   */
  lemma MatchEndMeaning(p: Pattern, text: string, i: nat)
    requires WellFormed(p)
    ensures MatchEnd(p, text, i).None? <==> forall h :: h in p.heads ==> !HeadMatchesAt(h, p.minRun, text, i)
    ensures MatchEnd(p, text, i).Some? ==>
      exists h :: h in p.heads && HeadMatchesAt(h, p.minRun, text, i) && MatchEnd(p, text, i).value == RunEnd(text, i + |h|)
  {
    var r := FirstHead(p.heads, p.minRun, text, i);
    if r.Some? {
      assert p.heads[r.value] in p.heads;
    } else {
      forall h | h in p.heads ensures !HeadMatchesAt(h, p.minRun, text, i) {
        var k :| 0 <= k < |p.heads| && p.heads[k] == h;
      }
    }
  }

  /**
   * `ends(k)` says where the match starting at `k` ends, if any: a match is
   * never empty and never runs past position `n`.
   */
  predicate Advances(ends: nat -> Option<nat>, n: nat)
  {
    forall k: nat :: k < n && ends(k).Some? ==> k < ends(k).value <= n
  }

  /**
   * The (start, end) positions a leftmost, non-overlapping scan from `i`
   * reports: after a match it resumes where the match ended, otherwise one
   * position later. They are ordered and disjoint, and each is the match
   * that starts at its start.
   */
  function Scan(ends: nat -> Option<nat>, n: nat, i: nat): (sp: seq<(nat, nat)>)
    requires Advances(ends, n)
    requires i <= n
    ensures forall m :: 0 <= m < |sp| ==> i <= sp[m].0 < sp[m].1 <= n && ends(sp[m].0) == Some(sp[m].1)
    ensures forall m, m' :: 0 <= m < m' < |sp| ==> sp[m].1 <= sp[m'].0
    decreases n - i
  {
    if i == n then []
    else match ends(i)
      case Some(e) => [(i, e)] + Scan(ends, n, e)
      case None => Scan(ends, n, i + 1)
  }

  /** Position `k` lies inside one of the spans. */
  predicate Covered(sp: seq<(nat, nat)>, k: nat)
  {
    exists m :: 0 <= m < |sp| && sp[m].0 <= k < sp[m].1
  }

  /** Leftmost scanning: every position where a match starts lies inside a reported match. */
  lemma {:induction false} ScanLeftmost(ends: nat -> Option<nat>, n: nat, i: nat, k: nat)
    requires Advances(ends, n)
    requires i <= k < n
    requires ends(k).Some?
    ensures Covered(Scan(ends, n, i), k)
    decreases n - i
  {
    var sp := Scan(ends, n, i);
    if ends(i).Some? {
      var e := ends(i).value;
      var rest := Scan(ends, n, e);
      assert sp == [(i, e)] + rest;
      if k < e {
        assert sp[0].0 <= k < sp[0].1;
      } else {
        ScanLeftmost(ends, n, e, k);
        var m :| 0 <= m < |rest| && rest[m].0 <= k < rest[m].1;
        assert sp[m + 1] == rest[m];
      }
    } else {
      assert k != i;
      ScanLeftmost(ends, n, i + 1, k);
    }
  }

  /** The match-end function of pattern `p` over `text`. */
  function Ends(p: Pattern, text: string): nat -> Option<nat>
  {
    k => MatchEnd(p, text, k)
  }

  lemma EndsAdvance(p: Pattern, text: string)
    requires WellFormed(p)
    ensures Advances(Ends(p, text), |text|)
  {
    forall k: nat | k < |text| && Ends(p, text)(k).Some? ensures k < Ends(p, text)(k).value <= |text| {
      assert Ends(p, text)(k) == MatchEnd(p, text, k);
    }
  }

  /** The spans `findall` reports for `p` over the whole text. */
  function Spans(p: Pattern, text: string): (sp: seq<(nat, nat)>)
    requires WellFormed(p)
    ensures forall m :: 0 <= m < |sp| ==> sp[m].0 < sp[m].1 <= |text| && MatchEnd(p, text, sp[m].0) == Some(sp[m].1)
    ensures forall m, m' :: 0 <= m < m' < |sp| ==> sp[m].1 <= sp[m'].0
  {
    EndsAdvance(p, text);
    Scan(Ends(p, text), |text|, 0)
  }

  /** No match of `p` starts at a position outside the reported spans. */
  lemma SpansLeftmost(p: Pattern, text: string, k: nat)
    requires WellFormed(p)
    requires k < |text|
    requires MatchEnd(p, text, k).Some?
    ensures Covered(Spans(p, text), k)
  {
    EndsAdvance(p, text);
    ScanLeftmost(Ends(p, text), |text|, 0, k);
  }

  /** The strings `re.findall` returns, in order. */
  function FindAll(p: Pattern, text: string): (ms: seq<string>)
    requires WellFormed(p)
  {
    var sp := Spans(p, text);
    seq(|sp|, m requires 0 <= m < |sp| => text[sp[m].0..sp[m].1])
  }

  /** `set(pattern.findall(text))`. */
  function FindAllSet(p: Pattern, text: string): (ms: set<string>)
    requires WellFormed(p)
  {
    set u | u in FindAll(p, text)
  }

  /**
   * The text of a match starts with one of the heads (case-insensitively),
   * carries at least `minRun` further characters, contains no delimiter, and
   * is followed in the text by a delimiter or by the end of the text.
   */
  lemma SpanShape(p: Pattern, text: string, s: nat, e: nat)
    requires WellFormed(p)
    requires MatchEnd(p, text, s) == Some(e)
    ensures s < e <= |text|
    ensures exists h :: h in p.heads && FoldedPrefix(text[s..e], h) && e - s >= |h| + p.minRun
    ensures DelimiterFree(text[s..e])
    ensures e == |text| || IsDelimiter(text[e])
  {
    MatchEndMeaning(p, text, s);
    var h :| h in p.heads && HeadMatchesAt(h, p.minRun, text, s) && e == RunEnd(text, s + |h|);
    FoldedAtSlice(text, s, e, h);
    FoldedAtDelimiterFree(text, s, h);
    RunEndMaximal(text, s + |h|);
    var u := text[s..e];
    forall k | 0 <= k < |u| ensures !IsDelimiter(u[k]) {
      assert u[k] == text[s + k];
    }
  }

  /** Every string `findall` returns is the text of one of the spans. */
  lemma FindAllSpan(p: Pattern, text: string, u: string)
    requires WellFormed(p)
    requires u in FindAllSet(p, text)
    ensures exists s: nat, e: nat :: MatchEnd(p, text, s) == Some(e) && u == text[s..e]
  {
    var sp := Spans(p, text);
    var m :| 0 <= m < |sp| && u == text[sp[m].0..sp[m].1];
  }
}
