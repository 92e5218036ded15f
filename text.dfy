/** String operations the pages use: `toLowerCase`, `includes`, `join`,
    and the line structure of a multi-line template literal. */
module Text {

  /** `toLowerCase` on one character, for the ASCII letters. */
  function LowerChar(c: char): (d: char)
  {
    if 'A' <= c <= 'Z' then (c as int + 32) as char else c
  }

  /** Lowercasing a whole string, character by character. */
  function Lower(s: string): string
  {
    seq(|s|, i requires 0 <= i < |s| => LowerChar(s[i]))
  }

  /** Lowering twice is lowering once. */
  lemma LowerIdempotent(s: string)
    ensures Lower(Lower(s)) == Lower(s)
  {
  }

  /** `s.includes(q)`, scanning the start positions from the left. */
  function Contains(s: string, q: string): bool
    decreases |s|
  {
    q <= s || (s != [] && Contains(s[1..], q))
  }

  /** `Contains` holds exactly when `q` occurs in `s` at some position. */
  lemma {:induction false} ContainsIffOccurs(s: string, q: string)
    ensures Contains(s, q) <==> exists i :: 0 <= i <= |s| && q <= s[i..]
  {
    if q <= s {
      assert q <= s[0..];
    } else if s != [] {
      ContainsIffOccurs(s[1..], q);
      if exists i :: 0 <= i <= |s| && q <= s[i..] {
        var i :| 0 <= i <= |s| && q <= s[i..];
        assert i != 0;
        assert s[1..][i - 1..] == s[i..];
      }
      if Contains(s[1..], q) {
        var i :| 0 <= i <= |s[1..]| && q <= s[1..][i..];
        assert s[1..][i..] == s[i + 1..];
      }
    }
  }

  /** `parts.join(sep)`. */
  function JoinSep(parts: seq<string>, sep: string): string
  {
    if |parts| == 0 then ""
    else if |parts| == 1 then parts[0]
    else parts[0] + sep + JoinSep(parts[1..], sep)
  }

  /** Joining two non-empty lists of parts puts one separator between them. */
  lemma {:induction false} JoinSepAppend(a: seq<string>, b: seq<string>, sep: string)
    requires |a| > 0 && |b| > 0
    ensures JoinSep(a + b, sep) == JoinSep(a, sep) + sep + JoinSep(b, sep)
  {
    if |a| == 1 {
      assert (a + b)[1..] == b;
    } else {
      assert (a + b)[1..] == a[1..] + b;
      JoinSepAppend(a[1..], b, sep);
    }
  }

  /** Indenting every part and joining with newlines is one leading indent
      followed by the parts joined with newline-and-indent. */
  lemma {:induction false} JoinIndented(parts: seq<string>, ind: string)
    requires |parts| > 0
    ensures JoinLines(seq(|parts|, k requires 0 <= k < |parts| => ind + parts[k]))
         == ind + JoinSep(parts, "\n" + ind)
  {
    var lines := seq(|parts|, k requires 0 <= k < |parts| => ind + parts[k]);
    if |parts| > 1 {
      var tail := seq(|parts| - 1, k requires 0 <= k < |parts| - 1 => ind + parts[1..][k]);
      assert lines[1..] == tail;
      JoinIndented(parts[1..], ind);
      assert JoinLines(lines) == (ind + parts[0]) + "\n" + (ind + JoinSep(parts[1..], "\n" + ind));
      assert (ind + parts[0]) + "\n" + (ind + JoinSep(parts[1..], "\n" + ind))
          == ind + (parts[0] + ("\n" + ind) + JoinSep(parts[1..], "\n" + ind));
    }
  }

  /** Replacing one part by non-empty parts that join to it leaves the
      joined text unchanged. */
  lemma JoinSpliced(before: seq<string>, middle: seq<string>, after: seq<string>, part: string)
    requires |before| > 0 && |middle| > 0 && |after| > 0
    requires JoinLines(middle) == part
    ensures JoinLines(before + [part] + after) == JoinLines(before + middle + after)
  {
    JoinSepAppend(before, [part] + after, "\n");
    JoinSepAppend([part], after, "\n");
    JoinSepAppend(before, middle + after, "\n");
    JoinSepAppend(middle, after, "\n");
    assert before + [part] + after == before + ([part] + after);
    assert before + middle + after == before + (middle + after);
  }

  /** The text of a list of lines. */
  function JoinLines(lines: seq<string>): string
  {
    JoinSep(lines, "\n")
  }

  /** `s.split('\n')`: the lines of a text, at least one. */
  function SplitLines(s: string): (lines: seq<string>)
    ensures |lines| >= 1
  {
    if s == [] then [""]
    else
      var rest := SplitLines(s[1..]);
      if s[0] == '\n' then [""] + rest
      else [[s[0]] + rest[0]] + rest[1..]
  }

  lemma {:induction false} SplitLinesOfLine(a: string)
    requires '\n' !in a
    ensures SplitLines(a) == [a]
  {
    if a != [] {
      SplitLinesOfLine(a[1..]);
      assert a == [a[0]] + a[1..];
    }
  }

  lemma {:induction false} SplitLinesCons(a: string, b: string)
    requires '\n' !in a
    ensures SplitLines(a + "\n" + b) == [a] + SplitLines(b)
  {
    if a == [] {
      assert a + "\n" + b == "\n" + b;
      assert ("\n" + b)[1..] == b;
    } else {
      assert (a + "\n" + b)[1..] == a[1..] + "\n" + b;
      SplitLinesCons(a[1..], b);
      assert a == [a[0]] + a[1..];
    }
  }

  /** Splitting the text of newline-free lines gives the lines back. */
  lemma {:induction false} SplitJoinLines(lines: seq<string>)
    requires |lines| >= 1
    requires forall k :: 0 <= k < |lines| ==> '\n' !in lines[k]
    ensures SplitLines(JoinLines(lines)) == lines
  {
    if |lines| == 1 {
      SplitLinesOfLine(lines[0]);
    } else {
      SplitLinesCons(lines[0], JoinLines(lines[1..]));
      SplitJoinLines(lines[1..]);
    }
  }

  /** How a template literal renders a boolean. */
  function BoolText(b: bool): (t: string)
    ensures t == "true" <==> b
    ensures t == "false" <==> !b
  {
    if b then "true" else "false"
  }
}
