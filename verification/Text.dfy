/** The fragment of the Python `str` methods that the modelled code relies on. */
module Text {

  /** `str.isspace` for one code point. */
  predicate IsSpace(c: char) {
    var n := c as int;
    || 9 <= n <= 13
    || 28 <= n <= 32
    || n == 0x85 || n == 0xA0 || n == 0x1680
    || 0x2000 <= n <= 0x200A
    || n == 0x2028 || n == 0x2029 || n == 0x202F || n == 0x205F || n == 0x3000
  }

  /** The code points at which `str.splitlines` ends a line. */
  predicate IsLineBreak(c: char) {
    var n := c as int;
    10 <= n <= 13 || 28 <= n <= 30 || n == 0x85 || n == 0x2028 || n == 0x2029
  }

  /** Tab to carriage return, the four separators and the space, and the blanks of Unicode; the ten line ends are among them. */
  lemma BlanksExactly(c: char)
    ensures IsLineBreak(c) <==> c in "\n\r\U{0B}\U{0C}\U{1C}\U{1D}\U{1E}\U{85}\U{2028}\U{2029}"
    ensures IsSpace(c) <==> IsLineBreak(c) || c in "\t \U{1F}\U{A0}\U{1680}\U{202F}\U{205F}\U{3000}" || '\U{2000}' <= c <= '\U{200A}'
  {
  }

  function LStrip(s: string): string {
    if s != [] && IsSpace(s[0]) then LStrip(s[1..]) else s
  }

  function RStrip(s: string): string {
    if s != [] && IsSpace(s[|s| - 1]) then RStrip(s[..|s| - 1]) else s
  }

  /** `str.strip()`. */
  function Strip(s: string): string {
    RStrip(LStrip(s))
  }

  /** `pattern` occurs in `s` at position `i`. */
  predicate MatchesAt(s: string, pattern: string, i: int) {
    0 <= i <= i + |pattern| <= |s| && s[i..i + |pattern|] == pattern
  }

  lemma {:induction false} LStripShape(s: string)
    ensures |LStrip(s)| <= |s| && LStrip(s) == s[|s| - |LStrip(s)|..]
    ensures LStrip(s) != [] ==> !IsSpace(LStrip(s)[0])
  {
    if s != [] && IsSpace(s[0]) { LStripShape(s[1..]); }
  }

  lemma {:induction false} RStripShape(s: string)
    ensures RStrip(s) <= s
    ensures RStrip(s) != [] ==> !IsSpace(RStrip(s)[|RStrip(s)| - 1])
  {
    if s != [] && IsSpace(s[|s| - 1]) { RStripShape(s[..|s| - 1]); }
  }

  /** Stripping cuts only the ends, and leaves no blank there. */
  lemma StripShape(s: string)
    ensures Trimmed(Strip(s))
    ensures exists i :: MatchesAt(s, Strip(s), i)
    ensures Strip(s) != [] ==> LStrip(s) != [] && LStrip(s)[0] == Strip(s)[0]
  {
    hide IsSpace;
    var l := LStrip(s);
    LStripShape(s);
    RStripShape(l);
    assert MatchesAt(s, Strip(s), |s| - |l|);
  }

  predicate AllSpace(s: string) {
    forall i :: 0 <= i < |s| ==> IsSpace(s[i])
  }

  /** Stripping cuts blanks on the left and on the right, and nothing else. */
  lemma StripsExactly(s: string)
    ensures Trimmed(Strip(s))
    ensures exists left, right :: s == left + Strip(s) + right && AllSpace(left) && AllSpace(right)
  {
    StripShape(s);
    var l := LStrip(s);
    var left := LStripCuts(s);
    var right := RStripCuts(l);
    assert s == left + Strip(s) + right;
  }

  lemma {:induction false} LStripCuts(s: string) returns (left: string)
    ensures s == left + LStrip(s) && AllSpace(left)
  {
    hide IsSpace;
    if s != [] && IsSpace(s[0]) {
      var rest := LStripCuts(s[1..]);
      left := [s[0]] + rest;
      assert s == [s[0]] + s[1..];
    } else {
      left := "";
    }
  }

  lemma {:induction false} RStripCuts(s: string) returns (right: string)
    ensures s == RStrip(s) + right && AllSpace(right)
  {
    hide IsSpace;
    if s != [] && IsSpace(s[|s| - 1]) {
      var rest := RStripCuts(s[..|s| - 1]);
      right := rest + [s[|s| - 1]];
      assert s == s[..|s| - 1] + [s[|s| - 1]];
    } else {
      right := "";
    }
  }

  predicate Trimmed(s: string) {
    s != [] ==> !IsSpace(s[0]) && !IsSpace(s[|s| - 1])
  }

  predicate Blank(s: string) {
    Strip(s) == ""
  }

  lemma StripTrimmed(s: string)
    requires Trimmed(s)
    ensures LStrip(s) == s && RStrip(s) == s && Strip(s) == s
  {
    hide IsSpace;
  }

  lemma StripTwice(s: string)
    ensures Strip(Strip(s)) == Strip(s)
  {
    StripShape(s);
    StripTrimmed(Strip(s));
  }

  /** `strip()` leaves nothing exactly when every character is a blank. */
  lemma {:induction false} BlankMeansAllSpace(s: string)
    ensures Blank(s) <==> forall i :: 0 <= i < |s| ==> IsSpace(s[i])
  {
    hide IsSpace;
    LStripBlank(s);
    LStripShape(s);
    if LStrip(s) != [] { RStripKeepsHead(LStrip(s)); }
  }

  lemma {:induction false} LStripBlank(s: string)
    ensures LStrip(s) == [] <==> forall i :: 0 <= i < |s| ==> IsSpace(s[i])
  {
    hide IsSpace;
    if s != [] && IsSpace(s[0]) {
      LStripBlank(s[1..]);
      if LStrip(s) == [] {
        forall i | 0 <= i < |s| ensures IsSpace(s[i]) {
          if i > 0 { assert s[i] == s[1..][i - 1]; }
        }
      }
    }
  }

  lemma {:induction false} RStripKeepsHead(s: string)
    requires s != [] && !IsSpace(s[0])
    ensures RStrip(s) != []
  {
    hide IsSpace;
    if IsSpace(s[|s| - 1]) {
      RStripKeepsHead(s[..|s| - 1]);
    }
  }

  /** `str.replace(pattern, replacement)`: leftmost, non-overlapping. */
  function ReplaceAll(s: string, pattern: string, replacement: string): string
    requires pattern != []
  {
    if |s| < |pattern| then s
    else if s[..|pattern|] == pattern then replacement + ReplaceAll(s[|pattern|..], pattern, replacement)
    else [s[0]] + ReplaceAll(s[1..], pattern, replacement)
  }

  lemma {:induction false} ReplaceAllChars(s: string, pattern: string, replacement: string, c: char)
    requires pattern != []
    requires c in ReplaceAll(s, pattern, replacement)
    ensures c in s || c in replacement
  {
    if |s| < |pattern| {
    } else if s[..|pattern|] == pattern {
      if c !in replacement { ReplaceAllChars(s[|pattern|..], pattern, replacement, c); }
    } else if c != s[0] {
      ReplaceAllChars(s[1..], pattern, replacement, c);
    }
  }

  /** `str.find(pattern, start)`, with -1 for no match. */
  function Find(s: string, pattern: string, start: nat): (r: int)
    ensures r != -1 ==> start <= r && MatchesAt(s, pattern, r)
    ensures forall i :: start <= i && MatchesAt(s, pattern, i) ==> 0 <= r <= i
    decreases |s| - start
  {
    if start + |pattern| > |s| then -1
    else if MatchesAt(s, pattern, start) then start
    else Find(s, pattern, start + 1)
  }

  /** Position of the first `c`, or -1. */
  function IndexOf(s: string, c: char): (r: int)
    ensures r == -1 <==> c !in s
    ensures r != -1 ==> 0 <= r < |s| && s[r] == c && c !in s[..r]
  {
    if s == [] then -1
    else if s[0] == c then 0
    else
      var r := IndexOf(s[1..], c);
      if r == -1 then -1 else (assert s[..r + 1] == [s[0]] + s[1..][..r]; r + 1)
  }

  /** Length of the first line of `s`. */
  function FirstBreak(s: string): (k: nat)
    ensures k <= |s|
    ensures forall i :: 0 <= i < k ==> !IsLineBreak(s[i])
    ensures k < |s| ==> IsLineBreak(s[k])
  {
    if s == [] || IsLineBreak(s[0]) then 0 else 1 + FirstBreak(s[1..])
  }

  predicate BreakFree(s: string) {
    forall i :: 0 <= i < |s| ==> !IsLineBreak(s[i])
  }

  /** `str.splitlines()`: a carriage return and newline end one line together. */
  function SplitLines(s: string): (lines: seq<string>)
    ensures forall i :: 0 <= i < |lines| ==> BreakFree(lines[i])
  {
    if s == [] then []
    else
      var k := FirstBreak(s);
      if k == |s| then [s]
      else
        var skip := if s[k] == '\r' && k + 1 < |s| && s[k + 1] == '\n' then 2 else 1;
        [s[..k]] + SplitLines(s[k + skip..])
  }

  /** One line end: a carriage return with its newline, or any other break that is not the first half of that. */
  predicate LineEnd(end: string, rest: string) {
    end == "\r\n" || (|end| == 1 && IsLineBreak(end[0]) && !(end == "\r" && "\n" <= rest))
  }

  /** Each line ends at the first break, and a text without one is a line by itself. */
  lemma SplitsExactly(line: string, end: string, rest: string)
    requires BreakFree(line)
    ensures LineEnd(end, rest) ==> SplitLines(line + end + rest) == [line] + SplitLines(rest)
    ensures SplitLines(line) == if line == "" then [] else [line]
  {
    if LineEnd(end, rest) {
      var s, k := line + end + rest, |line|;
      assert s[k] == end[0];
      assert forall i :: 0 <= i < k ==> s[i] == line[i];
      assert FirstBreak(s) == k && s[..k] == line;
      assert end == "\r\n" ==> s[k + 1] == '\n' && s[k + 2..] == rest;
      assert |end| == 1 ==> s[k + 1..] == rest;
    }
  }

  /** `"\n".join(lines)`. */
  function Join(lines: seq<string>): string {
    if |lines| == 0 then ""
    else if |lines| == 1 then lines[0]
    else lines[0] + "\n" + Join(lines[1..])
  }

  /** Splitting undoes joining, for non-empty lines that hold no line break. */
  lemma {:induction false} SplitJoin(lines: seq<string>)
    requires forall i :: 0 <= i < |lines| ==> lines[i] != [] && BreakFree(lines[i])
    ensures SplitLines(Join(lines)) == lines
  {
    if |lines| == 0 {
    } else if |lines| == 1 {
      var s := lines[0];
      assert FirstBreak(s) == |s|;
    } else {
      var s := Join(lines);
      var k := |lines[0]|;
      assert s[k] == '\n';
      assert s[..k] == lines[0];
      assert forall i :: 0 <= i < k ==> s[i] == lines[0][i];
      assert FirstBreak(s) == k;
      assert s[k + 1..] == Join(lines[1..]);
      SplitJoin(lines[1..]);
      assert lines == [lines[0]] + lines[1..];
    }
  }

  lemma {:induction false} JoinAppend(left: seq<string>, right: seq<string>)
    requires left != [] && right != []
    ensures Join(left + right) == Join(left) + "\n" + Join(right)
  {
    if |left| == 1 {
      assert (left + right)[1..] == right;
    } else {
      assert (left + right)[1..] == left[1..] + right;
      JoinAppend(left[1..], right);
      assert Join(left + right) == left[0] + "\n" + (Join(left[1..]) + "\n" + Join(right));
    }
  }

  /** Code-point order of strings, the order of `sorted`. */
  predicate Below(a: string, b: string) {
    if b == [] then false
    else if a == [] then true
    else a[0] < b[0] || (a[0] == b[0] && Below(a[1..], b[1..]))
  }

  /** The strings agree up to `k`, where `a` ends or has the smaller character. */
  predicate Precedes(a: string, b: string, k: int) {
    0 <= k <= |a| && k < |b| && (forall j :: 0 <= j < k ==> a[j] == b[j]) && (k == |a| || a[k] < b[k])
  }

  /** The first difference decides, and a proper beginning comes first. */
  lemma {:induction false} BelowExactly(a: string, b: string)
    ensures Below(a, b) <==> exists k :: Precedes(a, b, k)
  {
    if a != [] && b != [] && a[0] == b[0] {
      BelowExactly(a[1..], b[1..]);
      if k :| Precedes(a[1..], b[1..], k) { assert Precedes(a, b, k + 1); }
      if k :| Precedes(a, b, k) { assert Precedes(a[1..], b[1..], k - 1); }
    } else if Below(a, b) {
      assert Precedes(a, b, 0);
    }
  }

  lemma {:induction false} BelowTotal(a: string, b: string)
    ensures a == b || Below(a, b) || Below(b, a)
  {
    if a != [] && b != [] && a[0] == b[0] {
      BelowTotal(a[1..], b[1..]);
      if a[1..] == b[1..] { assert a == [a[0]] + a[1..] == b; }
    }
  }

  lemma {:induction false} BelowTransitive(a: string, b: string, c: string)
    requires Below(a, b) && Below(b, c)
    ensures Below(a, c)
  {
    if a != [] && a[0] == b[0] == c[0] {
      BelowTransitive(a[1..], b[1..], c[1..]);
    }
  }

  lemma {:induction false} BelowIrreflexive(a: string)
    ensures !Below(a, a)
  {
    if a != [] { BelowIrreflexive(a[1..]); }
  }
}
