/**
 * The string operations main.go relies on: Go's strings.TrimSpace (with
 * unicode.IsSpace), strings.Join, and the text that the stdin loop of
 * parseArgs builds by appending each scanned line plus "\n".
 */
module Text {

  /**
   * unicode.IsSpace: the Latin-1 spaces and the other Unicode White_Space code
   * points. On ASCII it agrees with the six-character table that
   * strings.TrimSpace consults before falling back to unicode.IsSpace.
   */
  predicate IsSpace(c: char)
    ensures c < '\U{80}' ==> (IsSpace(c) <==> c in "\t\n\U{B}\U{C}\r ")
    ensures IsSpace(c) ==> c != '-'
  {
    || c == '\t' || c == '\n' || c == '\U{B}' || c == '\U{C}' || c == '\r' || c == ' '
    || c == '\U{85}' || c == '\U{A0}' || c == '\U{1680}'
    || ('\U{2000}' <= c <= '\U{200A}')
    || c == '\U{2028}' || c == '\U{2029}' || c == '\U{202F}' || c == '\U{205F}' || c == '\U{3000}'
  }

  predicate AllSpace(s: string)
  {
    forall i :: 0 <= i < |s| ==> IsSpace(s[i])
  }

  /** Drops the leading white space: the result is the suffix that starts at the first non-space. */
  function TrimLeft(s: string): (r: string)
    ensures |r| <= |s| && r == s[|s| - |r|..]
    ensures AllSpace(s[..|s| - |r|])
    ensures r == [] || !IsSpace(r[0])
  {
    if s != [] && IsSpace(s[0]) then TrimLeft(s[1..]) else s
  }

  /** Drops the trailing white space: the result is the prefix that ends at the last non-space. */
  function TrimRight(s: string): (r: string)
    ensures |r| <= |s| && r == s[..|r|]
    ensures AllSpace(s[|r|..])
    ensures r == [] || !IsSpace(r[|r| - 1])
  {
    if s != [] && IsSpace(s[|s| - 1]) then TrimRight(s[..|s| - 1]) else s
  }

  /** strings.TrimSpace: the string with leading and trailing white space removed. */
  function TrimSpace(s: string): (r: string)
    ensures |r| <= |s|
    ensures r == [] <==> AllSpace(s)
    ensures r == [] || (!IsSpace(r[0]) && !IsSpace(r[|r| - 1]))
  {
    var t := TrimLeft(s);
    var r := TrimRight(t);
    assert r != [] ==> r[0] == t[0];
    assert r == [] ==> AllSpace(s) by {
      if r == [] {
        assert s == s[..|s| - |t|] + t;
        assert t == t[|r|..];
      }
    }
    r
  }

  /** What TrimSpace removes is white space on both sides of a contiguous slice of the input. */
  lemma TrimSpaceIsSlice(s: string)
    ensures var i := |s| - |TrimLeft(s)|;
            var r := TrimSpace(s);
            i + |r| <= |s| && r == s[i..i + |r|] && AllSpace(s[..i]) && AllSpace(s[i + |r|..])
  {
  }

  /** Trimming twice is trimming once. */
  lemma TrimSpaceIdempotent(s: string)
    ensures TrimSpace(TrimSpace(s)) == TrimSpace(s)
  {
  }

  /** strings.Join(parts, sep): the parts in order, with sep between neighbours. */
  function Join(parts: seq<string>, sep: string): (r: string)
    ensures |parts| == 0 ==> r == ""
    ensures |parts| == 1 ==> r == parts[0]
    ensures |parts| > 1 ==> |parts[0]| + |sep| <= |r| && r[..|parts[0]|] == parts[0] && r[|parts[0]|..|parts[0]| + |sep|] == sep
    decreases |parts|
  {
    if |parts| == 0 then ""
    else if |parts| == 1 then parts[0]
    else parts[0] + sep + Join(parts[1..], sep)
  }

  /** Joining one more part at the end extends the joined text by the separator and that part. */
  lemma {:induction false} JoinSnoc(parts: seq<string>, p: string, sep: string)
    ensures Join(parts + [p], sep) == if parts == [] then p else Join(parts, sep) + sep + p
    decreases |parts|
  {
    if |parts| >= 2 {
      assert (parts + [p])[1..] == parts[1..] + [p];
      JoinSnoc(parts[1..], p, sep);
    } else if |parts| == 1 {
      assert (parts + [p])[1..] == [p];
    }
  }

  /**
   * With a white-space separator, the joined text is all white space exactly
   * when every part is.
   */
  lemma {:induction false} JoinAllSpace(parts: seq<string>, sep: string)
    requires AllSpace(sep)
    ensures AllSpace(Join(parts, sep)) <==> forall i :: 0 <= i < |parts| ==> AllSpace(parts[i])
    decreases |parts|
  {
    if |parts| >= 2 {
      JoinAllSpace(parts[1..], sep);
      var rest := Join(parts[1..], sep);
      var whole := parts[0] + sep + rest;
      assert whole[..|parts[0]|] == parts[0];
      assert whole[|parts[0]| + |sep|..] == rest;
      if AllSpace(whole) {
        forall i | 0 <= i < |parts| ensures AllSpace(parts[i]) {
          if i > 0 {
            assert parts[i] == parts[1..][i - 1];
          } else {
            assert forall j :: 0 <= j < |parts[0]| ==> parts[0][j] == whole[j];
          }
        }
      }
      if forall i :: 0 <= i < |parts| ==> AllSpace(parts[i]) {
        assert AllSpace(parts[0]);
        assert forall i :: 0 <= i < |parts| - 1 ==> AllSpace(parts[1..][i]);
      }
    }
  }

  /** The length of the built text: every line's length plus one newline each. */
  function TotalLength(lines: seq<string>): nat
    decreases |lines|
  {
    if lines == [] then 0 else TotalLength(lines[..|lines| - 1]) + |lines[|lines| - 1]| + 1
  }

  /** The text parseArgs builds from stdin: every scanned line followed by "\n", in input order. */
  function Lines(lines: seq<string>): (r: string)
    ensures |r| == TotalLength(lines)
    ensures lines != [] ==> r[|r| - 1] == '\n'
    decreases |lines|
  {
    if lines == [] then "" else Lines(lines[..|lines| - 1]) + lines[|lines| - 1] + "\n"
  }

  /** The first line's text comes first. */
  lemma {:induction false} LinesCons(l: string, lines: seq<string>)
    ensures Lines([l] + lines) == l + "\n" + Lines(lines)
    decreases |lines|
  {
    if lines != [] {
      var last := lines[|lines| - 1];
      assert ([l] + lines)[..|lines|] == [l] + lines[..|lines| - 1];
      LinesCons(l, lines[..|lines| - 1]);
    }
  }

  /** Position of the first c in s, or |s| when s has none. */
  function IndexOf(s: string, c: char): (k: nat)
    ensures k <= |s|
    ensures forall j :: 0 <= j < k ==> s[j] != c
    ensures k < |s| ==> s[k] == c
    decreases |s|
  {
    if s == [] then 0 else if s[0] == c then 0 else 1 + IndexOf(s[1..], c)
  }

  /** Cuts a text into its newline-terminated lines, dropping each terminator. */
  function SplitLines(s: string): (lines: seq<string>)
    decreases |s|
  {
    if s == [] then []
    else
      var k := IndexOf(s, '\n');
      if k == |s| then [s] else [s[..k]] + SplitLines(s[k + 1..])
  }

  /**
   * The built text loses nothing: when no line holds a newline (as scanned
   * lines never do), cutting the text at its newlines gives back the lines.
   */
  lemma {:induction false} SplitLinesOfLines(lines: seq<string>)
    requires forall i :: 0 <= i < |lines| ==> '\n' !in lines[i]
    ensures SplitLines(Lines(lines)) == lines
    decreases |lines|
  {
    if lines != [] {
      var l, rest := lines[0], lines[1..];
      assert lines == [l] + rest;
      LinesCons(l, rest);
      var s := l + "\n" + Lines(rest);
      assert s[..|l|] == l;
      assert s[|l|] == '\n';
      assert IndexOf(s, '\n') == |l|;
      assert s[|l| + 1..] == Lines(rest);
      SplitLinesOfLines(rest);
    }
  }
}
