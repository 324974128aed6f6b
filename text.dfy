/** The Python string operations the workflow applies to answers and to git's
    output: `str.strip()`, `str.splitlines()`, `str.lower()` and `s or default`. */
module Text {

  /** `c.isspace()`: the characters `str.strip()` removes. */
  predicate IsSpace(c: char)
  {
    || c == ' '
    || '\t' <= c <= '\r'                 // \t \n \v \f \r
    || '\U{1C}' <= c <= '\U{1F}'
    || c == '\U{85}' || c == '\U{A0}' || c == '\U{1680}'
    || '\U{2000}' <= c <= '\U{200A}'
    || c == '\U{2028}' || c == '\U{2029}' || c == '\U{202F}' || c == '\U{205F}' || c == '\U{3000}'
  }

  /** The line boundaries of `str.splitlines()` (`\r\n` counts as one). */
  predicate IsLineBreak(c: char)
  {
    || c == '\n' || c == '\r' || c == '\U{0B}' || c == '\U{0C}'
    || c == '\U{1C}' || c == '\U{1D}' || c == '\U{1E}'
    || c == '\U{85}' || c == '\U{2028}' || c == '\U{2029}'
  }

  predicate NoLineBreak(s: string)
  {
    forall i :: 0 <= i < |s| ==> !IsLineBreak(s[i])
  }

  /** Every line boundary is white space, so `strip()` removes them too. */
  lemma LineBreakIsSpace(c: char)
    ensures IsLineBreak(c) ==> IsSpace(c)
  {
  }

  /** `s.lstrip()` */
  function TrimStart(s: string): (r: string)
    ensures |r| <= |s|
    decreases |s|
  {
    if s != [] && IsSpace(s[0]) then TrimStart(s[1..]) else s
  }

  /** `s.rstrip()` */
  function TrimEnd(s: string): (r: string)
    ensures |r| <= |s|
    decreases |s|
  {
    if s != [] && IsSpace(s[|s| - 1]) then TrimEnd(s[..|s| - 1]) else s
  }

  /** `lstrip()` cuts off exactly the leading white space. */
  lemma {:induction false} TrimStartCuts(s: string)
    ensures var r := TrimStart(s);
      && r == s[|s| - |r|..]
      && (forall i :: 0 <= i < |s| - |r| ==> IsSpace(s[i]))
      && (r == [] || !IsSpace(r[0]))
    decreases |s|
  {
    if s != [] && IsSpace(s[0]) {
      TrimStartCuts(s[1..]);
    }
  }

  /** `rstrip()` cuts off exactly the trailing white space. */
  lemma {:induction false} TrimEndCuts(s: string)
    ensures var r := TrimEnd(s);
      && r == s[..|r|]
      && (forall i :: |r| <= i < |s| ==> IsSpace(s[i]))
      && (r == [] || !IsSpace(r[|r| - 1]))
    decreases |s|
  {
    if s != [] && IsSpace(s[|s| - 1]) {
      TrimEndCuts(s[..|s| - 1]);
    }
  }

  /** `r` is `s[k..k + |r|]` and everything of `s` around it is white space. */
  predicate TrimmedAt(s: string, k: nat, r: string)
  {
    && k + |r| <= |s| && r == s[k..k + |r|]
    && (forall i :: 0 <= i < k ==> IsSpace(s[i]))
    && (forall i :: k + |r| <= i < |s| ==> IsSpace(s[i]))
  }

  /** `s.strip()` */
  function Strip(s: string): string
  {
    TrimEnd(TrimStart(s))
  }

  /** What `strip()` gives: the middle of `s` left once the white space at both
      ends is cut off; it is empty exactly when `s` is all white space. */
  lemma StripTrims(s: string)
    ensures exists k :: TrimmedAt(s, k, Strip(s))
    ensures Strip(s) != [] ==> !IsSpace(Strip(s)[0]) && !IsSpace(Strip(s)[|Strip(s)| - 1])
    ensures Strip(s) == [] <==> forall i :: 0 <= i < |s| ==> IsSpace(s[i])
  {
    var t := TrimStart(s);
    var r := TrimEnd(t);
    var k := |s| - |t|;
    TrimStartCuts(s);
    TrimEndCuts(t);
    assert forall i :: k + |r| <= i < |s| ==> t[i - k] == s[i];
    assert Strip(s) == r;
    assert TrimmedAt(s, k, r);
    assert r != [] ==> r[0] == t[0];
  }

  /** A string with no white space at either end is its own strip. */
  lemma StripUnchanged(s: string)
    requires s != [] && !IsSpace(s[0]) && !IsSpace(s[|s| - 1])
    ensures Strip(s) == s
  {
    assert TrimStart(s) == s;
    assert TrimEnd(s) == s;
  }

  /** The index of the first line boundary of `s`, or `|s|` when it has none. */
  function FirstBreak(s: string): (i: nat)
    ensures i <= |s|
    ensures i < |s| ==> IsLineBreak(s[i])
    decreases |s|
  {
    if s == [] || IsLineBreak(s[0]) then 0 else 1 + FirstBreak(s[1..])
  }

  /** `s.splitlines()`: the lines of `s` without their boundaries; a final
      boundary does not start a further, empty line. */
  function SplitLines(s: string): (lines: seq<string>)
    ensures s == [] <==> lines == []
    decreases |s|
  {
    if s == [] then []
    else
      var i := FirstBreak(s);
      if i == |s| then [s]
      else
        var next := if s[i] == '\r' && i + 1 < |s| && s[i + 1] == '\n' then i + 2 else i + 1;
        [s[..i]] + SplitLines(s[next..])
  }

  /** No character before the first boundary is a boundary. */
  lemma {:induction false} FirstBreakIsFirst(s: string)
    ensures NoLineBreak(s[..FirstBreak(s)])
    decreases |s|
  {
    if s != [] && !IsLineBreak(s[0]) {
      FirstBreakIsFirst(s[1..]);
      assert s[..FirstBreak(s)] == [s[0]] + s[1..][..FirstBreak(s[1..])];
    }
  }

  /** No line that `splitlines()` returns holds a line boundary. */
  lemma {:induction false} SplitLinesHaveNoBreak(s: string)
    ensures forall i :: 0 <= i < |SplitLines(s)| ==> NoLineBreak(SplitLines(s)[i])
    decreases |s|
  {
    if s != [] {
      var i := FirstBreak(s);
      FirstBreakIsFirst(s);
      if i < |s| {
        var next := if s[i] == '\r' && i + 1 < |s| && s[i + 1] == '\n' then i + 2 else i + 1;
        SplitLinesHaveNoBreak(s[next..]);
      }
    }
  }

  /** `"\n".join(lines)`, the inverse of `SplitLines` (see SplitJoin). */
  function JoinLines(lines: seq<string>): string
  {
    if lines == [] then []
    else if |lines| == 1 then lines[0]
    else lines[0] + "\n" + JoinLines(lines[1..])
  }

  lemma {:induction false} FirstBreakOfJoin(l: string, t: string)
    requires NoLineBreak(l)
    ensures FirstBreak(l + "\n" + t) == |l|
    decreases |l|
  {
    if l != [] {
      assert (l + "\n" + t)[1..] == l[1..] + "\n" + t;
      FirstBreakOfJoin(l[1..], t);
    }
  }

  /** Splitting the lines of a listing joined with `\n` gives the lines back,
      unless the last one is empty (`splitlines` drops a final boundary). */
  lemma {:induction false} SplitJoin(lines: seq<string>)
    requires forall i :: 0 <= i < |lines| ==> NoLineBreak(lines[i])
    requires lines == [] || lines[|lines| - 1] != []
    ensures SplitLines(JoinLines(lines)) == lines
    decreases |lines|
  {
    if |lines| == 1 {
      assert FirstBreak(lines[0]) == |lines[0]|;
    } else if |lines| > 1 {
      var l, t := lines[0], JoinLines(lines[1..]);
      var s := l + "\n" + t;
      FirstBreakOfJoin(l, t);
      assert s[|l|] == '\n' && s[..|l|] == l && s[|l| + 1..] == t;
      SplitJoin(lines[1..]);
    }
  }

  /** `c.lower()` for the characters whose lower case is a single ASCII letter:
      `A`..`Z` and the KELVIN SIGN; every other character is left as it is. */
  function LowerChar(c: char): char
  {
    if 'A' <= c <= 'Z' then (c as int + 32) as char
    else if c == '\U{212A}' then 'k'
    else c
  }

  function Lower(s: string): string
    decreases |s|
  {
    if s == [] then [] else [LowerChar(s[0])] + Lower(s[1..])
  }

  /** `input(...).strip().lower()`: how every menu answer is read. */
  function Normalize(answer: string): string
  {
    Lower(Strip(answer))
  }

  /** An answer picks the menu letter `letter` exactly when, white space cut
      off at both ends, it is that letter in either case (or the KELVIN SIGN
      for `k`). `str.lower()` never shortens a string, so the comparison with
      a one-letter string is exact. */
  lemma AnswerPicks(answer: string, letter: char)
    requires 'a' <= letter <= 'z'
    ensures Normalize(answer) == [letter] <==>
              || Strip(answer) == [letter]
              || Strip(answer) == [(letter as int - 32) as char]
              || (letter == 'k' && Strip(answer) == "\U{212A}")
  {
    var s := Strip(answer);
    if Normalize(answer) == [letter] {
      assert |Lower(s)| == |s| == 1 && Lower(s)[0] == LowerChar(s[0]);
    }
    if || s == [letter] || s == [(letter as int - 32) as char]
       || (letter == 'k' && s == "\U{212A}") {
      assert Lower(s) == [LowerChar(s[0])];
    }
  }

  /** `s or default`: an empty answer falls back to the default. */
  function OrDefault(s: string, default: string): (r: string)
    ensures s == [] ==> r == default
    ensures s != [] ==> r == s
  {
    if s == [] then default else s
  }
}
