/**
 * The comment prefix that `runCode` writes in front of the program it runs:
 * every earlier (code, error) pair of the history, numbered from 1, code
 * before error, with every line of each entry turned into a `//` comment.
 */
module HistoryComments {
  import opened JsText
  import opened Sequences

  const CommentMarker: string := "// "

  /** `s.split('\n').join('\n// ')`: every newline of `s` followed by a comment marker. */
  function Escape(s: string): string {
    Join(Split(s, '\n'), "\n// ")
  }

  /** `${header}\n// ${escaped entry}\n\n`: one entry of the history under its header line. */
  function Block(header: string, entry: string): string {
    header + "\n" + CommentMarker + Escape(entry) + "\n\n"
  }

  function CodeHeader(i: nat): string {
    "// Previous Code " + NatToString(i + 1) + ":"
  }

  function ErrorHeader(i: nat): string {
    "// Previous Error " + NatToString(i + 1) + ":"
  }

  /** What one iteration of the comment loop appends for pair `i`: its code block, then its error block. */
  function PairComments(i: nat, code: string, error: string): string {
    Block(CodeHeader(i), code) + Block(ErrorHeader(i), error)
  }

  /** The comments for the first `n` pairs of the history, in history order. */
  function Comments(codes: seq<string>, errors: seq<string>, n: nat): (r: string)
    requires n <= |codes| && n <= |errors|
    ensures r == [] <==> n == 0
  {
    if n == 0 then []
    else Comments(codes, errors, n - 1) + PairComments(n - 1, codes[n - 1], errors[n - 1])
  }

  /** The prefix starts with the block of the oldest code. */
  lemma {:induction false} CommentsStartWithFirstCode(codes: seq<string>, errors: seq<string>, n: nat)
    requires 0 < n <= |codes| && n <= |errors|
    ensures StartsWith(Comments(codes, errors, n), Block(CodeHeader(0), codes[0]))
  {
    var first := Block(CodeHeader(0), codes[0]);
    var pair := PairComments(n - 1, codes[n - 1], errors[n - 1]);
    if n == 1 {
      StartsWithAppend(first, Block(ErrorHeader(0), errors[0]), first);
      assert Comments(codes, errors, 1) == [] + pair;
      assert [] + pair == pair;
    } else {
      CommentsStartWithFirstCode(codes, errors, n - 1);
      StartsWithAppend(Comments(codes, errors, n - 1), pair, first);
    }
  }

  // ---------------------------------------------------------------------------
  // The same prefix described line by line
  // ---------------------------------------------------------------------------

  /** Each line behind a `// ` marker. */
  function Commented(lines: seq<string>): (r: seq<string>)
    ensures |r| == |lines|
    ensures forall k :: 0 <= k < |r| ==> r[k] == CommentMarker + lines[k]
  {
    if lines == [] then [] else [CommentMarker + lines[0]] + Commented(lines[1..])
  }

  /** The lines of one block: the header, the entry's lines commented out, one empty line. */
  function EntryLines(header: string, entry: string): seq<string> {
    [header] + Commented(Split(entry, '\n')) + [[]]
  }

  /** The lines of the comments for the first `n` pairs. */
  function CommentLines(codes: seq<string>, errors: seq<string>, n: nat): seq<string>
    requires n <= |codes| && n <= |errors|
  {
    if n == 0 then []
    else
      CommentLines(codes, errors, n - 1)
      + EntryLines(CodeHeader(n - 1), codes[n - 1]) + EntryLines(ErrorHeader(n - 1), errors[n - 1])
  }

  predicate IsCommentLine(line: string) {
    line == [] || StartsWith(line, "//")
  }

  /** Marking every piece is the same as marking the first and every newline. */
  lemma {:induction false} MarkerJoin(lines: seq<string>)
    requires |lines| >= 1
    ensures CommentMarker + Join(lines, "\n// ") == Join(Commented(lines), "\n")
    decreases |lines|
  {
    if |lines| > 1 {
      MarkerJoin(lines[1..]);
      var tail := Join(lines[1..], "\n// ");
      assert Commented(lines)[1..] == Commented(lines[1..]);
      calc {
        CommentMarker + Join(lines, "\n// ");
        CommentMarker + (lines[0] + "\n// " + tail);
        { AppendAssoc(CommentMarker + lines[0] + "\n", CommentMarker, tail); }
        (CommentMarker + lines[0]) + "\n" + (CommentMarker + tail);
      }
    }
  }

  /** A commented-out entry's lines are its own lines behind markers. */
  lemma EscapedLines(entry: string)
    ensures Split(CommentMarker + Escape(entry), '\n') == Commented(Split(entry, '\n'))
  {
    var lines := Split(entry, '\n');
    MarkerJoin(lines);
    var marked := Commented(lines);
    forall k | 0 <= k < |marked|
      ensures '\n' !in marked[k]
    {
      assert marked[k] == CommentMarker + lines[k];
    }
    SplitJoin(marked, '\n');
  }

  /** Splitting a block followed by more text: the block's lines, then the lines of the rest. */
  lemma BlockLines(header: string, entry: string, rest: string)
    requires '\n' !in header
    ensures Split(Block(header, entry) + rest, '\n') == EntryLines(header, entry) + Split(rest, '\n')
  {
    var body := CommentMarker + Escape(entry);
    var after := body + ['\n'] + ([] + ['\n'] + rest);
    assert Block(header, entry) == header + ['\n'] + (body + "\n\n");
    assert (body + "\n\n") + rest == after;
    AppendAssoc(header + ['\n'], body + "\n\n", rest);
    SplitAround(header, '\n', after);
    SplitWithoutSeparator(header, '\n');
    SplitAround(body, '\n', [] + ['\n'] + rest);
    EscapedLines(entry);
    SplitAround([], '\n', rest);
    assert Split([], '\n') == [[]];
  }

  lemma HeadersOneLine(i: nat)
    ensures '\n' !in CodeHeader(i) && '\n' !in ErrorHeader(i)
  {
    var n := NatToString(i + 1);
    assert forall k :: 0 <= k < |n| ==> n[k] != '\n';
  }

  /**
   * The file `runCode` writes splits into the comment lines of the history,
   * followed by the lines of the program itself, unchanged.
   */
  lemma {:induction false} CommentsThenProgram(codes: seq<string>, errors: seq<string>, n: nat, program: string)
    requires n <= |codes| && n <= |errors|
    ensures Split(Comments(codes, errors, n) + program, '\n')
         == CommentLines(codes, errors, n) + Split(program, '\n')
    decreases n
  {
    if n == 0 {
      assert [] + program == program;
    } else {
      var code, error := Block(CodeHeader(n - 1), codes[n - 1]), Block(ErrorHeader(n - 1), errors[n - 1]);
      var before := Comments(codes, errors, n - 1);
      var rest := code + (error + program);
      var lines := CommentLines(codes, errors, n - 1);
      var codeLines := EntryLines(CodeHeader(n - 1), codes[n - 1]);
      var errorLines := EntryLines(ErrorHeader(n - 1), errors[n - 1]);
      var programLines := Split(program, '\n');
      HeadersOneLine(n - 1);
      calc {
        Split(Comments(codes, errors, n) + program, '\n');
        { assert Comments(codes, errors, n) == before + (code + error);
          AppendAssoc(before, code + error, program);
          AppendAssoc(code, error, program); }
        Split(before + rest, '\n');
        { CommentsThenProgram(codes, errors, n - 1, rest); }
        lines + Split(rest, '\n');
        { BlockLines(CodeHeader(n - 1), codes[n - 1], error + program); }
        lines + (codeLines + Split(error + program, '\n'));
        { BlockLines(ErrorHeader(n - 1), errors[n - 1], program); }
        lines + (codeLines + (errorLines + programLines));
        { AppendAssoc(codeLines, errorLines, programLines);
          AppendAssoc(lines, codeLines + errorLines, programLines);
          AppendAssoc(lines, codeLines, errorLines); }
        CommentLines(codes, errors, n) + programLines;
      }
    }
  }

  /** Every line of the comment prefix is empty or starts with `//`. */
  lemma {:induction false} CommentLinesAreComments(codes: seq<string>, errors: seq<string>, n: nat)
    requires n <= |codes| && n <= |errors|
    ensures forall k :: 0 <= k < |CommentLines(codes, errors, n)| ==> IsCommentLine(CommentLines(codes, errors, n)[k])
    decreases n
  {
    if n > 0 {
      var a := CommentLines(codes, errors, n - 1);
      var b := EntryLines(CodeHeader(n - 1), codes[n - 1]);
      var c := EntryLines(ErrorHeader(n - 1), errors[n - 1]);
      CommentLinesAreComments(codes, errors, n - 1);
      HeadersAreComments(n - 1);
      EntryLinesAreComments(CodeHeader(n - 1), codes[n - 1]);
      EntryLinesAreComments(ErrorHeader(n - 1), errors[n - 1]);
      CommentLinesAppend(a, b);
      CommentLinesAppend(a + b, c);
    }
  }

  lemma CommentLinesAppend(a: seq<string>, b: seq<string>)
    requires forall k :: 0 <= k < |a| ==> IsCommentLine(a[k])
    requires forall k :: 0 <= k < |b| ==> IsCommentLine(b[k])
    ensures forall k :: 0 <= k < |a + b| ==> IsCommentLine((a + b)[k])
  {
    forall k | 0 <= k < |a + b|
      ensures IsCommentLine((a + b)[k])
    {
      if k < |a| {
        assert (a + b)[k] == a[k];
      } else {
        assert (a + b)[k] == b[k - |a|];
      }
    }
  }

  lemma HeadersAreComments(i: nat)
    ensures StartsWith(CodeHeader(i), "//") && StartsWith(ErrorHeader(i), "//")
  {
    var n := NatToString(i + 1);
    assert CodeHeader(i)[..2] == "//";
    assert ErrorHeader(i)[..2] == "//";
  }

  lemma EntryLinesAreComments(header: string, entry: string)
    requires StartsWith(header, "//")
    ensures forall k :: 0 <= k < |EntryLines(header, entry)| ==> IsCommentLine(EntryLines(header, entry)[k])
  {
    var marked := Commented(Split(entry, '\n'));
    forall k | 0 <= k < |marked|
      ensures StartsWith(marked[k], "//")
    {
      assert marked[k][..2] == "//";
    }
    var lines := EntryLines(header, entry);
    forall k | 0 <= k < |lines|
      ensures IsCommentLine(lines[k])
    {
      if 0 < k < |lines| - 1 {
        assert lines[k] == marked[k - 1];
      }
    }
  }

  /** The marker removed from each line. */
  function Uncommented(lines: seq<string>): seq<string> {
    if lines == [] then []
    else [if StartsWith(lines[0], CommentMarker) then lines[0][|CommentMarker|..] else lines[0]] + Uncommented(lines[1..])
  }

  /** No history entry is lost: removing the markers from its lines and joining them gives it back. */
  lemma EntryRecoverable(entry: string)
    ensures Join(Uncommented(Commented(Split(entry, '\n'))), "\n") == entry
  {
    UncommentedCommented(Split(entry, '\n'));
    JoinSplit(entry, '\n');
  }

  lemma {:induction false} UncommentedCommented(lines: seq<string>)
    ensures Uncommented(Commented(lines)) == lines
    decreases |lines|
  {
    if lines != [] {
      UncommentedCommented(lines[1..]);
      var first := CommentMarker + lines[0];
      assert first[..|CommentMarker|] == CommentMarker;
      assert first[|CommentMarker|..] == lines[0];
      assert Commented(lines)[1..] == Commented(lines[1..]);
    }
  }
}
