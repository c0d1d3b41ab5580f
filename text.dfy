/** A small Option type shared by the scanner and the frontier. */
module Maybe {
  datatype Option<+T> = None | Some(value: T)
}

/**
 * Character classes and string predicates used by both crawlers and by the
 * console-error classifier: ASCII case folding (the part of IGNORECASE this
 * model keeps), the whitespace sets of Python and of JavaScript, substring
 * containment (Python's and JavaScript's `in` / `includes`) and trimming.
 */
module Text {

  /** ASCII lower-casing; every other character folds to itself. */
  function Lower(c: char): char
  {
    if 'A' <= c <= 'Z' then (c as int + 32) as char else c
  }

  /** `lit` occurs at position `i` of `text`, compared case-insensitively. */
  predicate FoldedAt(text: string, i: nat, lit: string)
  {
    i + |lit| <= |text| && forall k :: 0 <= k < |lit| ==> Lower(text[i + k]) == lit[k]
  }

  predicate FoldedPrefix(s: string, lit: string)
  {
    FoldedAt(s, 0, lit)
  }

  /** A case-insensitive match of `a + b` is a match of `a` followed by one of `b`. */
  lemma FoldedConcat(text: string, i: nat, a: string, b: string)
    ensures FoldedAt(text, i, a + b) <==> FoldedAt(text, i, a) && FoldedAt(text, i + |a|, b)
  {
    if FoldedAt(text, i, a) && FoldedAt(text, i + |a|, b) {
      forall k | 0 <= k < |a + b| ensures Lower(text[i + k]) == (a + b)[k] {
        if k >= |a| {
          assert Lower(text[(i + |a|) + (k - |a|)]) == b[k - |a|];
        }
      }
    }
    if FoldedAt(text, i, a + b) {
      forall k | 0 <= k < |a| ensures Lower(text[i + k]) == a[k] {
        assert (a + b)[k] == a[k];
      }
      forall k | 0 <= k < |b| ensures Lower(text[i + |a| + k]) == b[k] {
        assert Lower(text[i + (|a| + k)]) == (a + b)[|a| + k];
      }
    }
  }

  /** A case-insensitive match at `i` is a case-insensitive prefix of any slice of the text starting at `i` that covers it. */
  lemma FoldedAtSlice(text: string, i: nat, j: nat, lit: string)
    requires i + |lit| <= j <= |text|
    ensures FoldedAt(text, i, lit) <==> FoldedPrefix(text[i..j], lit)
  {
    if FoldedAt(text, i, lit) {
      forall k | 0 <= k < |lit| ensures Lower(text[i..j][k]) == lit[k] {
        assert text[i..j][k] == text[i + k];
      }
    }
    if FoldedPrefix(text[i..j], lit) {
      forall k | 0 <= k < |lit| ensures Lower(text[i + k]) == lit[k] {
        assert text[i..j][k] == text[i + k];
      }
    }
  }

  /**
   * Python's whitespace (str.isspace, which is also what `\s` and str.strip()
   * use on str values): the ASCII controls 0x09-0x0D and 0x1C-0x1F, space,
   * and the Unicode separators.
   */
  const PySpaces: set<char> := {
    '\t', '\n', '\U{B}', '\U{C}', '\r', '\U{1C}', '\U{1D}', '\U{1E}', '\U{1F}', ' ', '\U{85}', '\U{A0}', '\U{1680}',
    '\U{2000}', '\U{2001}', '\U{2002}', '\U{2003}', '\U{2004}', '\U{2005}', '\U{2006}', '\U{2007}', '\U{2008}',
    '\U{2009}', '\U{200A}', '\U{2028}', '\U{2029}', '\U{202F}', '\U{205F}', '\U{3000}' }

  predicate IsPySpace(c: char)
  {
    c in PySpaces
  }

  /**
   * JavaScript's WhiteSpace and LineTerminator characters, the set that
   * String.prototype.trim removes.
   */
  const JsSpaces: set<char> := {
    '\t', '\n', '\U{B}', '\U{C}', '\r', ' ', '\U{A0}', '\U{1680}',
    '\U{2000}', '\U{2001}', '\U{2002}', '\U{2003}', '\U{2004}', '\U{2005}', '\U{2006}', '\U{2007}', '\U{2008}',
    '\U{2009}', '\U{200A}', '\U{2028}', '\U{2029}', '\U{202F}', '\U{205F}', '\U{3000}', '\U{FEFF}' }

  predicate IsJsSpace(c: char)
  {
    c in JsSpaces
  }

  /** The characters the class `[^"'\s<>]` of both crawler patterns refuses. */
  predicate IsDelimiter(c: char)
  {
    c == '"' || c == '\'' || c == '<' || c == '>' || IsPySpace(c)
  }

  predicate DelimiterFree(s: string)
  {
    forall k :: 0 <= k < |s| ==> !IsDelimiter(s[k])
  }

  /** Lower-case letters, digits, `:`, `/` and `.`: what the literal parts of both patterns are made of. */
  predicate IsUrlChar(c: char)
  {
    ('a' <= c <= 'z') || ('0' <= c <= '9') || c == ':' || c == '/' || c == '.'
  }

  lemma UrlCharsDelimiterFree(s: string)
    requires forall c :: c in s ==> IsUrlChar(c)
    ensures DelimiterFree(s)
  {
    forall k | 0 <= k < |s| ensures !IsDelimiter(s[k]) {
      assert s[k] in s;
    }
  }

  /** Case folding never turns a non-delimiter into a delimiter or back. */
  lemma DelimiterFoldsToItself(c: char)
    requires IsDelimiter(c)
    ensures Lower(c) == c
  {
  }

  /** A text that matches a delimiter-free literal case-insensitively is delimiter-free there. */
  lemma FoldedAtDelimiterFree(text: string, i: nat, lit: string)
    requires FoldedAt(text, i, lit) && DelimiterFree(lit)
    ensures forall k :: i <= k < i + |lit| ==> !IsDelimiter(text[k])
  {
    forall k | i <= k < i + |lit| ensures !IsDelimiter(text[k]) {
      assert Lower(text[i + (k - i)]) == lit[k - i];
      if IsDelimiter(text[k]) {
        DelimiterFoldsToItself(text[k]);
      }
    }
  }

  predicate OccursAt(s: string, sub: string, i: nat)
  {
    i + |sub| <= |s| && s[i..i + |sub|] == sub
  }

  /** Substring containment: Python's `sub in s`, JavaScript's `s.includes(sub)`. */
  predicate Contains(s: string, sub: string)
  {
    exists i: nat :: i + |sub| <= |s| && OccursAt(s, sub, i)
  }

  /** A string lacking one of the characters of `sub` does not contain `sub`. */
  lemma MissingChar(s: string, sub: string, j: nat)
    requires j < |sub| && sub[j] !in s
    ensures !Contains(s, sub)
  {
    forall i: nat | i + |sub| <= |s| ensures !OccursAt(s, sub, i) {
      assert s[i..i + |sub|][j] == s[i + j];
    }
  }

  /** A string containing `outer` contains every piece of `outer`. */
  lemma ContainsPiece(s: string, outer: string, i: nat, j: nat)
    requires i <= j <= |outer|
    requires Contains(s, outer)
    ensures Contains(s, outer[i..j])
  {
    var p: nat :| p + |outer| <= |s| && OccursAt(s, outer, p);
    assert s[p..p + |outer|] == outer;
    forall k | 0 <= k < j - i ensures s[p + i..p + j][k] == outer[i..j][k] {
      assert s[p + i + k] == s[p..p + |outer|][i + k];
    }
    assert OccursAt(s, outer[i..j], p + i);
  }

  /**
   * Removes the leading and trailing characters that satisfy `ws`: Python's
   * str.strip() with `IsPySpace`, JavaScript's trim() with `IsJsSpace`.
   */
  function Trim(s: string, ws: char -> bool): (r: string)
    ensures |r| <= |s|
  {
    TrimEnd(TrimStart(s, ws), ws)
  }

  function TrimStart(s: string, ws: char -> bool): (r: string)
    ensures |r| <= |s|
  {
    if s == [] || !ws(s[0]) then s else TrimStart(s[1..], ws)
  }

  function TrimEnd(s: string, ws: char -> bool): (r: string)
    ensures |r| <= |s|
  {
    if s == [] || !ws(s[|s| - 1]) then s else TrimEnd(s[..|s| - 1], ws)
  }

  /** TrimStart drops exactly the longest whitespace prefix: what is left is a suffix starting with a non-space. */
  lemma {:induction false} TrimStartMeaning(s: string, ws: char -> bool)
    ensures var r := TrimStart(s, ws);
      r == s[|s| - |r|..] && (forall k :: 0 <= k < |s| - |r| ==> ws(s[k])) && (r == [] || !ws(r[0]))
  {
    if s != [] && ws(s[0]) {
      TrimStartMeaning(s[1..], ws);
      var r := TrimStart(s, ws);
      forall k | 0 <= k < |s| - |r| ensures ws(s[k]) {
        if k > 0 {
          assert s[k] == s[1..][k - 1];
        }
      }
      assert s[1..][|s[1..]| - |r|..] == s[|s| - |r|..];
    }
  }

  /** TrimEnd drops exactly the longest whitespace suffix: what is left is a prefix ending with a non-space. */
  lemma {:induction false} TrimEndMeaning(s: string, ws: char -> bool)
    ensures var r := TrimEnd(s, ws);
      r == s[..|r|] && (forall k :: |r| <= k < |s| ==> ws(s[k])) && (r == [] || !ws(r[|r| - 1]))
  {
    if s != [] && ws(s[|s| - 1]) {
      var p := s[..|s| - 1];
      TrimEndMeaning(p, ws);
      var r := TrimEnd(s, ws);
      forall k | |r| <= k < |s| ensures ws(s[k]) {
        if k < |s| - 1 {
          assert s[k] == p[k];
        }
      }
      assert p[..|r|] == s[..|r|];
    }
  }

  /** Trimming leaves nothing exactly when every character is whitespace. */
  lemma TrimEmpty(s: string, ws: char -> bool)
    ensures Trim(s, ws) == [] <==> forall k :: 0 <= k < |s| ==> ws(s[k])
  {
    var t := TrimStart(s, ws);
    TrimStartMeaning(s, ws);
    TrimEndMeaning(t, ws);
    if Trim(s, ws) == [] {
      assert t == [];
    } else {
      var r := Trim(s, ws);
      assert r[0] == t[0] == s[|s| - |t|];
    }
  }
}
