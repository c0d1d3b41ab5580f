/**
 * The console-error analysis of error-check.js: the pasted console output is
 * split into lines on '\n', each line is typed by the first marker it
 * contains (SyntaxError, then ChunkLoadError, then TypeError), and the
 * entries whose line is blank once trimmed are dropped.
 */
module ErrorCheck {
  import opened Text

  /** `s.split('\n')`: the pieces between newlines, one more than there are newlines. */
  function Split(s: string): (lines: seq<string>)
    ensures |lines| == 1 + NewlineCount(s)
    ensures forall k :: 0 <= k < |lines| ==> '\n' !in lines[k]
    decreases |s|
  {
    if s == [] then [""]
    else
      var rest := Split(s[..|s| - 1]);
      var c := s[|s| - 1];
      if c == '\n' then rest + [""]
      else
        assert '\n' !in rest[|rest| - 1] + [c];
        rest[..|rest| - 1] + [rest[|rest| - 1] + [c]]
  }

  function NewlineCount(s: string): nat
  {
    if s == [] then 0 else NewlineCount(s[..|s| - 1]) + (if s[|s| - 1] == '\n' then 1 else 0)
  }

  /** `lines.join('\n')`, the inverse of the split. */
  function Join(lines: seq<string>): string
    requires |lines| >= 1
  {
    if |lines| == 1 then lines[0] else Join(lines[..|lines| - 1]) + "\n" + lines[|lines| - 1]
  }

  /** Joining the pieces with '\n' gives back the text: the split loses nothing. */
  lemma {:induction false} JoinSplit(s: string)
    ensures Join(Split(s)) == s
    decreases |s|
  {
    if s != [] {
      var p := s[..|s| - 1];
      var c := s[|s| - 1];
      var rest := Split(p);
      JoinSplit(p);
      assert s == p + [c];
      if c != '\n' {
        var lines := Split(s);
        assert lines[..|lines| - 1] == rest[..|rest| - 1];
        if |rest| == 1 {
          assert Join(lines) == rest[0] + [c];
        } else {
          assert Join(lines) == Join(rest[..|rest| - 1]) + "\n" + (rest[|rest| - 1] + [c]);
        }
      }
    }
  }

  /** Appending a character other than '\n' extends the last piece. */
  lemma {:induction false} SplitPlainSuffix(x: string, y: string)
    requires '\n' !in y
    ensures Split(x + "\n" + y) == Split(x) + [y]
    decreases |y|
  {
    if y == [] {
      assert x + "\n" + y == x + "\n";
      assert (x + "\n")[..|x|] == x;
    } else {
      var y' := y[..|y| - 1];
      assert x + "\n" + y == (x + "\n" + y') + [y[|y| - 1]];
      assert (x + "\n" + y)[..|x + "\n" + y| - 1] == x + "\n" + y';
      SplitPlainSuffix(x, y');
      assert y' + [y[|y| - 1]] == y;
    }
  }

  /** Lines free of '\n', once joined, split back into the same lines. */
  lemma {:induction false} SplitJoin(lines: seq<string>)
    requires |lines| >= 1
    requires forall k :: 0 <= k < |lines| ==> '\n' !in lines[k]
    ensures Split(Join(lines)) == lines
    decreases |lines|
  {
    if |lines| == 1 {
      SplitPlain(lines[0]);
    } else {
      var init := lines[..|lines| - 1];
      SplitJoin(init);
      SplitPlainSuffix(Join(init), lines[|lines| - 1]);
      assert init + [lines[|lines| - 1]] == lines;
    }
  }

  /** A text without '\n' is a single line. */
  lemma {:induction false} SplitPlain(s: string)
    requires '\n' !in s
    ensures Split(s) == [s]
    decreases |s|
  {
    if s != [] {
      var p := s[..|s| - 1];
      assert '\n' !in p by {
        forall k | 0 <= k < |p| ensures p[k] != '\n' {
          assert p[k] == s[k];
        }
      }
      SplitPlain(p);
      assert p + [s[|s| - 1]] == s;
    }
  }

  /** The `type` field: 'syntax', 'chunk-load', 'type' or 'unknown'. */
  datatype ErrorType = Syntax | ChunkLoad | TypeError | Unknown

  function TypeName(t: ErrorType): string
  {
    match t
    case Syntax => "syntax"
    case ChunkLoad => "chunk-load"
    case TypeError => "type"
    case Unknown => "unknown"
  }

  /** The four type strings are distinct, so the `type` field tells the four cases apart. */
  lemma TypeNamesDistinct(t: ErrorType, u: ErrorType)
    ensures TypeName(t) == TypeName(u) <==> t == u
  {
    if t != u {
      assert TypeName(t)[0] != TypeName(u)[0] || |TypeName(t)| != |TypeName(u)|;
    }
  }

  /** `{type, line}`: a line and the type of error it reports. */
  datatype Finding = Finding(kind: ErrorType, line: string)

  /** The callback of `map`: the first marker the line contains decides its type. */
  function Classify(line: string): (f: Finding)
    ensures f.line == line
  {
    if Contains(line, "SyntaxError") then Finding(Syntax, line)
    else if Contains(line, "ChunkLoadError") then Finding(ChunkLoad, line)
    else if Contains(line, "TypeError") then Finding(TypeError, line)
    else Finding(Unknown, line)
  }

  /**
   * SyntaxError wins over every other marker, ChunkLoadError over TypeError,
   * and a line with none of them is unknown.
   */
  lemma ClassifyPrecedence(line: string)
    ensures Classify(line).kind == Syntax <==> Contains(line, "SyntaxError")
    ensures Classify(line).kind == ChunkLoad <==> !Contains(line, "SyntaxError") && Contains(line, "ChunkLoadError")
    ensures Classify(line).kind == TypeError <==>
      !Contains(line, "SyntaxError") && !Contains(line, "ChunkLoadError") && Contains(line, "TypeError")
    ensures Classify(line).kind == Unknown <==>
      !Contains(line, "SyntaxError") && !Contains(line, "ChunkLoadError") && !Contains(line, "TypeError")
  {
  }

  /** The predicate of `filter`: `x.line.trim()` is the empty string, which is falsy. */
  predicate Blank(line: string)
  {
    Trim(line, IsJsSpace) == ""
  }

  /** A line is dropped exactly when every character of it is JavaScript whitespace. */
  lemma BlankMeansWhitespace(line: string)
    ensures Blank(line) <==> forall k :: 0 <= k < |line| ==> IsJsSpace(line[k])
  {
    TrimEmpty(line, IsJsSpace);
  }

  /** `lines.map(classify)`. */
  function ClassifyAll(lines: seq<string>): seq<Finding>
  {
    seq(|lines|, k requires 0 <= k < |lines| => Classify(lines[k]))
  }

  /** `findings.filter(x => x.line.trim())`. */
  function DropBlank(fs: seq<Finding>): seq<Finding>
  {
    if fs == [] then []
    else DropBlank(fs[..|fs| - 1]) + (if Blank(fs[|fs| - 1].line) then [] else [fs[|fs| - 1]])
  }

  /** The whole pipeline over the pasted output. */
  function Analyze(errors: string): seq<Finding>
  {
    DropBlank(ClassifyAll(Split(errors)))
  }

  /** Which lines survive the filter. */
  function Survives(lines: seq<string>): seq<bool>
  {
    seq(|lines|, i requires 0 <= i < |lines| => !Blank(lines[i]))
  }

  /** The positions holding `true`, in increasing order. */
  function Positions(keep: seq<bool>): (ks: seq<nat>)
    ensures forall m :: 0 <= m < |ks| ==> ks[m] < |keep| && keep[ks[m]]
    ensures forall m, m' :: 0 <= m < m' < |ks| ==> ks[m] < ks[m']
    ensures forall i :: 0 <= i < |keep| && keep[i] ==> i in ks
  {
    if keep == [] then []
    else
      var n := |keep| - 1;
      var ks := Positions(keep[..n]);
      if keep[n] then ks + [n] else ks
  }

  /** The positions of the lines that survive the filter. */
  function Kept(lines: seq<string>): seq<nat>
  {
    Positions(Survives(lines))
  }

  /**
   * Dropping blank findings after classifying keeps, in order, one finding
   * per non-blank line, carrying that line untrimmed with its type.
   */
  lemma {:induction false} DropBlankClassified(lines: seq<string>)
    ensures var out := DropBlank(ClassifyAll(lines)); var ks := Kept(lines);
      |out| == |ks| && forall m :: 0 <= m < |out| ==> ks[m] < |lines| && out[m] == Classify(lines[ks[m]])
    decreases |lines|
  {
    if lines != [] {
      var n := |lines| - 1;
      var init := lines[..n];
      DropBlankClassified(init);
      var fs := ClassifyAll(lines);
      var out0, ks0 := DropBlank(ClassifyAll(init)), Kept(init);
      assert fs[..n] == ClassifyAll(init);
      assert Survives(lines)[..n] == Survives(init);
      var out, ks := DropBlank(fs), Kept(lines);
      assert fs[n].line == lines[n];
      assert out == out0 + (if Blank(lines[n]) then [] else [fs[n]]);
      assert ks == ks0 + (if Blank(lines[n]) then [] else [n]);
      forall m | 0 <= m < |out| ensures ks[m] < |lines| && out[m] == Classify(lines[ks[m]]) {
        if m < |out0| {
          assert out[m] == out0[m] && ks[m] == ks0[m];
          assert init[ks0[m]] == lines[ks0[m]];
        }
      }
    }
  }

  /**
   * The analysis has one finding per line of the output whose trimmed text
   * is non-empty, in the order of the lines; each finding holds its line as
   * it was and the type of the first marker in it.
   */
  lemma AnalyzeMeaning(errors: string)
    ensures var lines := Split(errors); var ks := Kept(lines); var out := Analyze(errors);
      |out| == |ks|
      && (forall m :: 0 <= m < |out| ==> ks[m] < |lines| && out[m].line == lines[ks[m]] && out[m] == Classify(lines[ks[m]]))
      && (forall m, m' :: 0 <= m < m' < |ks| ==> ks[m] < ks[m'])
      && (forall i :: 0 <= i < |lines| ==> (i in ks <==> !Blank(lines[i])))
  {
    DropBlankClassified(Split(errors));
  }
}
