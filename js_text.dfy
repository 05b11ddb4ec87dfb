/**
 * The JavaScript string built-ins that the client and the orchestrator rely on,
 * stated over `seq<char>`: `trim`, `includes`, `split` on one character, `join`,
 * `+=` accumulation and the decimal rendering of a counter in a template literal.
 */
module JsText {
  import opened Sequences

  /** A character that `String.prototype.trim` removes: ECMAScript WhiteSpace or LineTerminator. */
  predicate IsSpace(c: char) {
    || c == '\t' || c == '\n' || c == '\U{B}' || c == '\U{C}' || c == '\r' || c == ' '
    || c == '\U{A0}' || c == '\U{1680}' || ('\U{2000}' <= c <= '\U{200A}')
    || c == '\U{2028}' || c == '\U{2029}' || c == '\U{202F}' || c == '\U{205F}'
    || c == '\U{3000}' || c == '\U{FEFF}'
  }

  predicate AllSpace(s: string) {
    forall k :: 0 <= k < |s| ==> IsSpace(s[k])
  }

  /** The number of space characters `s` starts with. */
  function LeadingSpaces(s: string): (n: nat)
    ensures n <= |s|
    ensures AllSpace(s[..n])
    ensures n < |s| ==> !IsSpace(s[n])
  {
    if s == [] || !IsSpace(s[0]) then 0
    else
      var n := 1 + LeadingSpaces(s[1..]);
      assert s[..n] == [s[0]] + s[1..][..n - 1];
      n
  }

  /** The number of space characters `s` ends with. */
  function TrailingSpaces(s: string): (n: nat)
    ensures n <= |s|
    ensures AllSpace(s[|s| - n..])
    ensures n < |s| ==> !IsSpace(s[|s| - 1 - n])
  {
    if s == [] || !IsSpace(s[|s| - 1]) then 0
    else
      var init := s[..|s| - 1];
      var n := 1 + TrailingSpaces(init);
      assert s[|s| - n..] == init[|init| - (n - 1)..] + [s[|s| - 1]];
      n
  }

  /**
   * `s.trim()`: the slice of `s` left after its leading and trailing spaces;
   * it is empty exactly when `s` is all spaces, and otherwise starts and ends
   * with a non-space character.
   */
  function Trim(s: string): (r: string)
    ensures LeadingSpaces(s) + |r| <= |s|
    ensures r == s[LeadingSpaces(s)..LeadingSpaces(s) + |r|]
    ensures AllSpace(s[LeadingSpaces(s) + |r|..])
    ensures r == [] <==> AllSpace(s)
    ensures r != [] ==> !IsSpace(r[0]) && !IsSpace(r[|r| - 1])
  {
    var lead := LeadingSpaces(s);
    var rest := s[lead..];
    var trail := TrailingSpaces(rest);
    var r := rest[..|rest| - trail];
    assert r == s[lead..lead + |r|];
    assert s[lead + |r|..] == rest[|rest| - trail..];
    assert lead == |s| ==> s[..lead] == s;
    assert lead < |s| ==> !IsSpace(rest[0]) && r != [];
    assert r != [] ==> r[0] == rest[0] && r[|r| - 1] == rest[|rest| - 1 - trail];
    r
  }

  /** `s.trim().length > 0` fails: the record is discarded as blank. */
  predicate Blank(s: string) {
    AllSpace(s)
  }

  lemma BlankIffTrimEmpty(s: string)
    ensures Blank(s) <==> Trim(s) == []
  {
  }

  /** Spaces in front of a text that starts with a non-space are exactly the leading spaces. */
  lemma {:induction false} LeadingOfPadded(pre: string, text: string)
    requires AllSpace(pre) && text != [] && !IsSpace(text[0])
    ensures LeadingSpaces(pre + text) == |pre|
    decreases |pre|
  {
    if pre == [] {
      assert pre + text == text;
    } else {
      assert (pre + text)[0] == pre[0];
      assert (pre + text)[1..] == pre[1..] + text;
      LeadingOfPadded(pre[1..], text);
    }
  }

  /** Spaces after a text that ends with a non-space are exactly the trailing spaces. */
  lemma {:induction false} TrailingOfPadded(text: string, post: string)
    requires AllSpace(post) && text != [] && !IsSpace(text[|text| - 1])
    ensures TrailingSpaces(text + post) == |post|
    decreases |post|
  {
    var s := text + post;
    if post == [] {
      assert s == text;
    } else {
      assert s[|s| - 1] == post[|post| - 1];
      assert s[..|s| - 1] == text + post[..|post| - 1];
      TrailingOfPadded(text, post[..|post| - 1]);
    }
  }

  /** Trimming removes exactly the space padding around a text that starts and ends with a non-space. */
  lemma TrimPadded(pre: string, core: string, post: string)
    requires AllSpace(pre) && AllSpace(post)
    requires core != [] && !IsSpace(core[0]) && !IsSpace(core[|core| - 1])
    ensures Trim(pre + core + post) == core
  {
    var s := pre + core + post;
    assert s == pre + (core + post);
    LeadingOfPadded(pre, core + post);
    assert s[|pre|..] == core + post;
    TrailingOfPadded(core, post);
    assert (core + post)[..|core|] == core;
  }

  predicate StartsWith(s: string, prefix: string) {
    |prefix| <= |s| && s[..|prefix|] == prefix
  }

  /** Text appended after a prefix keeps it a prefix. */
  lemma StartsWithAppend(s: string, t: string, prefix: string)
    requires StartsWith(s, prefix)
    ensures StartsWith(s + t, prefix)
  {
    assert (s + t)[..|prefix|] == s[..|prefix|];
  }

  /** `s.includes(t)`, searched from the front. */
  predicate Includes(s: string, t: string)
    ensures Includes(s, t) ==> |t| <= |s|
    decreases |s|
  {
    StartsWith(s, t) || (s != [] && Includes(s[1..], t))
  }

  predicate OccursAt(s: string, t: string, i: int) {
    0 <= i <= |s| - |t| && s[i..i + |t|] == t
  }

  /** `includes` holds exactly when `t` occurs at some position of `s`. */
  lemma {:induction false} IncludesIffOccurs(s: string, t: string)
    ensures Includes(s, t) <==> exists i :: OccursAt(s, t, i)
    decreases |s|
  {
    if |t| <= |s| {
      assert s[0..|t|] == s[..|t|];
    }
    assert StartsWith(s, t) <==> OccursAt(s, t, 0);
    forall i | OccursAt(s, t, i) && i > 0
      ensures OccursAt(s[1..], t, i - 1)
    {
      assert s[1..][i - 1..i - 1 + |t|] == s[i..i + |t|];
    }
    if s != [] {
      IncludesIffOccurs(s[1..], t);
      forall i | OccursAt(s[1..], t, i)
        ensures OccursAt(s, t, i + 1)
      {
        assert s[1..][i..i + |t|] == s[i + 1..i + 1 + |t|];
      }
    }
  }

  /** A text that embeds `t` verbatim includes it. */
  lemma IncludesEmbedded(a: string, t: string, b: string)
    ensures Includes(a + t + b, t)
  {
    assert (a + t + b)[|a|..|a| + |t|] == t;
    assert OccursAt(a + t + b, t, |a|);
    IncludesIffOccurs(a + t + b, t);
  }

  /** Text appended after an occurrence keeps it. */
  lemma IncludesLeft(x: string, y: string, t: string)
    requires Includes(x, t)
    ensures Includes(x + y, t)
  {
    IncludesIffOccurs(x, t);
    var i :| OccursAt(x, t, i);
    assert (x + y)[i..i + |t|] == x[i..i + |t|];
    assert OccursAt(x + y, t, i);
    IncludesIffOccurs(x + y, t);
  }

  /** `s.split(sep)` for a one-character separator: the maximal separator-free pieces, in order. */
  function Split(s: string, sep: char): (parts: seq<string>)
    ensures |parts| >= 1
    ensures forall k :: 0 <= k < |parts| ==> sep !in parts[k]
    decreases |s|
  {
    if s == [] then [[]]
    else if s[0] == sep then [[]] + Split(s[1..], sep)
    else
      var rest := Split(s[1..], sep);
      [[s[0]] + rest[0]] + rest[1..]
  }

  /** `parts.join(sep)`. */
  function Join(parts: seq<string>, sep: string): string {
    if parts == [] then []
    else if |parts| == 1 then parts[0]
    else parts[0] + sep + Join(parts[1..], sep)
  }

  lemma {:induction false} SplitWithoutSeparator(s: string, sep: char)
    requires sep !in s
    ensures Split(s, sep) == [s]
    decreases |s|
  {
    if s != [] {
      SplitWithoutSeparator(s[1..], sep);
      assert [s[0]] + s[1..] == s;
    }
  }

  /** Splitting distributes over a separator placed between two texts. */
  lemma {:induction false} SplitAround(a: string, sep: char, b: string)
    ensures Split(a + [sep] + b, sep) == Split(a, sep) + Split(b, sep)
    decreases |a|
  {
    var s := a + [sep] + b;
    if a == [] {
      assert s[1..] == b;
    } else {
      assert s[1..] == a[1..] + [sep] + b;
      SplitAround(a[1..], sep, b);
    }
  }

  /** Joining the pieces with the separator gives back the text. */
  lemma {:induction false} JoinSplit(s: string, sep: char)
    ensures Join(Split(s, sep), [sep]) == s
    decreases |s|
  {
    if s != [] {
      var rest := Split(s[1..], sep);
      JoinSplit(s[1..], sep);
      if s[0] == sep {
        assert Join([[]] + rest, [sep]) == [] + [sep] + Join(rest, [sep]);
      } else if |rest| == 1 {
        assert [s[0]] + s[1..] == s;
      } else {
        assert Join(rest, [sep]) == rest[0] + [sep] + Join(rest[1..], [sep]);
        assert Join([[s[0]] + rest[0]] + rest[1..], [sep])
            == ([s[0]] + rest[0]) + [sep] + Join(rest[1..], [sep]);
        assert [s[0]] + s[1..] == s;
      }
    }
  }

  /** Splitting a join of separator-free pieces gives back the pieces. */
  lemma {:induction false} SplitJoin(parts: seq<string>, sep: char)
    requires |parts| >= 1
    requires forall k :: 0 <= k < |parts| ==> sep !in parts[k]
    ensures Split(Join(parts, [sep]), sep) == parts
    decreases |parts|
  {
    SplitWithoutSeparator(parts[0], sep);
    if |parts| > 1 {
      SplitJoin(parts[1..], sep);
      SplitAround(parts[0], sep, Join(parts[1..], [sep]));
      assert parts == [parts[0]] + parts[1..];
    }
  }

  /** The text accumulated by `acc += chunk` over `chunks`, in arrival order. */
  function Concat(chunks: seq<string>): string {
    FlatMap((chunk: string) => chunk, chunks)
  }

  lemma ConcatAppend(a: seq<string>, b: seq<string>)
    ensures Concat(a + b) == Concat(a) + Concat(b)
  {
    FlatMapAppend((chunk: string) => chunk, a, b);
  }

  /** Every chunk appears in the accumulated text, at the offset where the earlier chunks end. */
  lemma ConcatHasChunk(chunks: seq<string>, k: nat)
    requires k < |chunks|
    ensures OccursAt(Concat(chunks), chunks[k], |Concat(chunks[..k])|)
  {
    assert chunks == chunks[..k] + [chunks[k]] + chunks[k + 1..];
    FlatMapAt((chunk: string) => chunk, chunks[..k], chunks[k], chunks[k + 1..]);
  }

  function DigitChar(d: nat): char
    requires d < 10
  {
    (d + '0' as int) as char
  }

  /** The decimal text of `n`, as a template literal renders `${n}`. */
  function NatToString(n: nat): (s: string)
    ensures |s| >= 1
    ensures forall k :: 0 <= k < |s| ==> '0' <= s[k] <= '9'
    ensures s[0] == '0' <==> n == 0
    decreases n
  {
    if n < 10 then [DigitChar(n)] else NatToString(n / 10) + [DigitChar(n % 10)]
  }

  /** The number a decimal text denotes. */
  function DecimalValue(s: string): nat
    requires forall k :: 0 <= k < |s| ==> '0' <= s[k] <= '9'
  {
    if s == [] then 0 else 10 * DecimalValue(s[..|s| - 1]) + (s[|s| - 1] as int - '0' as int)
  }

  /** Rendering a counter loses nothing: distinct counters give distinct labels. */
  lemma {:induction false} NatToStringRoundTrip(n: nat)
    ensures DecimalValue(NatToString(n)) == n
    decreases n
  {
    if n >= 10 {
      NatToStringRoundTrip(n / 10);
      var s := NatToString(n);
      assert s[..|s| - 1] == NatToString(n / 10);
    }
  }
}
