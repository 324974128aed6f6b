/** Reading the working tree's state from git's output:
    `has_unstaged_or_untracked_changes` over `git status --porcelain` and
    `has_staged_changes` over `git diff --cached --name-only`. */
module Porcelain {
  import opened Shell
  import opened Text

  /** A porcelain line that reports an untracked path (`??`) or a change in
      the work tree (second status column not blank). A line `??...` has a
      non-blank second column anyway, so the first test never decides. */
  predicate Dirty(line: string)
  {
    |line| >= 2 && ((line[0] == '?' && line[1] == '?') || line[1] != ' ')
  }

  /** The scan of the listing's lines: empty lines are skipped, the first
      dirty line answers true, and a one-character line raises `IndexError`
      (`line[1]`) when it is reached before any dirty line. */
  function ScanLines(lines: seq<string>): (r: Result<bool>)
    ensures r.Err? ==> r.error == IndexError
    decreases |lines|
  {
    if lines == [] then Ok(false)
    else if lines[0] == [] then ScanLines(lines[1..])
    else if |lines[0]| < 2 then Err(IndexError)
    else if Dirty(lines[0]) then Ok(true)
    else ScanLines(lines[1..])
  }

  /** `has_unstaged_or_untracked_changes` on the captured output: the whole
      output is stripped before it is split into lines. */
  function UnstagedOrUntracked(stdout: string): Result<bool>
  {
    ScanLines(SplitLines(Strip(stdout)))
  }

  /** `has_staged_changes` on the captured output: some file name was listed,
      i.e. the output is not all white space. */
  function AnyStaged(stdout: string): bool
  {
    Strip(stdout) != []
  }

  /** Some line of the listing is dirty. */
  predicate SomeDirty(lines: seq<string>)
  {
    exists i :: 0 <= i < |lines| && Dirty(lines[i])
  }

  /** No line of the listing is dirty, and none has exactly one character. */
  predicate AllClean(lines: seq<string>)
  {
    forall i :: 0 <= i < |lines| ==> !Dirty(lines[i]) && |lines[i]| != 1
  }

  /** A one-character line comes before every dirty line, so `line[1]` is
      evaluated on it. */
  predicate ShortLineFirst(lines: seq<string>)
  {
    exists i :: 0 <= i < |lines| && |lines[i]| == 1 && forall j :: 0 <= j < i ==> !Dirty(lines[j])
  }

  /** `s` holds a character that is not white space. */
  predicate HasNonSpace(s: string)
  {
    exists i :: 0 <= i < |s| && !IsSpace(s[i])
  }

  /** Staged changes are reported exactly when the output holds a character
      that is not white space. */
  lemma AnyStagedIff(stdout: string)
    ensures AnyStaged(stdout) <==> exists i :: 0 <= i < |stdout| && !IsSpace(stdout[i])
  {
    StripTrims(stdout);
  }

  /** What a clean or dirty answer of the scan means line by line. */
  lemma {:induction false} ScanAnswers(lines: seq<string>)
    ensures ScanLines(lines) == Ok(true) ==> exists i :: 0 <= i < |lines| && Dirty(lines[i])
    ensures ScanLines(lines) == Ok(false) ==> forall i :: 0 <= i < |lines| ==> !Dirty(lines[i]) && |lines[i]| != 1
    decreases |lines|
  {
    if lines != [] && (lines[0] == [] || (|lines[0]| >= 2 && !Dirty(lines[0]))) {
      ScanAnswers(lines[1..]);
      assert forall i :: 1 <= i < |lines| ==> lines[i] == lines[1..][i - 1];
    }
  }

  /** On a listing without one-character lines the scan never raises, and it
      answers true exactly when some line is dirty. */
  lemma {:induction false} ScanWellFormed(lines: seq<string>)
    requires forall i :: 0 <= i < |lines| ==> |lines[i]| != 1
    ensures ScanLines(lines) == Ok(exists i :: 0 <= i < |lines| && Dirty(lines[i]))
    decreases |lines|
  {
    if lines != [] && !Dirty(lines[0]) {
      ScanWellFormed(lines[1..]);
      assert forall i :: 1 <= i < |lines| ==> lines[i] == lines[1..][i - 1];
    }
  }

  /** The scan raises exactly when a one-character line comes before every
      dirty line. */
  lemma {:induction false} ScanRaises(lines: seq<string>)
    ensures ScanLines(lines).Err? <==>
              exists i :: 0 <= i < |lines| && |lines[i]| == 1 && forall j :: 0 <= j < i ==> !Dirty(lines[j])
    decreases |lines|
  {
    if lines != [] && |lines[0]| != 1 && !Dirty(lines[0]) {
      ScanRaises(lines[1..]);
      var tail := lines[1..];
      if exists i :: 0 <= i < |tail| && |tail[i]| == 1 && forall j :: 0 <= j < i ==> !Dirty(tail[j]) {
        var i :| 0 <= i < |tail| && |tail[i]| == 1 && forall j :: 0 <= j < i ==> !Dirty(tail[j]);
        assert forall j :: 0 <= j < i + 1 ==> !Dirty(lines[j]) by {
          forall j | 0 <= j < i + 1 ensures !Dirty(lines[j]) {
            if j > 0 { assert lines[j] == tail[j - 1]; }
          }
        }
        assert |lines[i + 1]| == 1;
      }
      if exists i :: 0 <= i < |lines| && |lines[i]| == 1 && forall j :: 0 <= j < i ==> !Dirty(lines[j]) {
        var i :| 0 <= i < |lines| && |lines[i]| == 1 && forall j :: 0 <= j < i ==> !Dirty(lines[j]);
        assert i > 0;
        assert |tail[i - 1]| == 1 && forall j :: 0 <= j < i - 1 ==> !Dirty(tail[j]) by {
          forall j | 0 <= j < i - 1 ensures !Dirty(tail[j]) { assert tail[j] == lines[j + 1]; }
        }
      }
    }
  }

  /** Because the whole output is stripped before it is split, the leading
      blank of the first line is lost: a listing whose only entry is a change
      made in the work tree and not staged (` Y path`) reads as clean. */
  lemma UnstagedFirstLineMissed(y: char, path: string)
    requires !IsSpace(y) && path != [] && !IsSpace(path[|path| - 1]) && NoLineBreak(path)
    ensures UnstagedOrUntracked([' ', y, ' '] + path) == Ok(false)
  {
    var s := [' ', y, ' '] + path;
    var t := [y, ' '] + path;
    assert s[1..] == t;
    assert TrimStart(t) == t;
    assert TrimEnd(t) == t;
    LineBreakIsSpace(y);
    assert NoLineBreak(t) by {
      forall i | 0 <= i < |t| ensures !IsLineBreak(t[i]) {
        if i >= 2 { assert t[i] == path[i - 2]; }
      }
    }
    assert FirstBreak(t) == |t|;
    assert ScanLines([t]) == ScanLines([]);
  }

  /** The same entry on any later line is seen. */
  lemma UnstagedLaterLineFound(first: string, y: char, path: string)
    requires NoLineBreak(first) && first != [] && !IsSpace(first[0])
    requires |first| >= 2 && !Dirty(first)
    requires !IsSpace(y) && path != [] && !IsSpace(path[|path| - 1]) && NoLineBreak(path)
    ensures UnstagedOrUntracked(first + "\n" + [' ', y, ' '] + path) == Ok(true)
  {
    var second := [' ', y, ' '] + path;
    var s := first + "\n" + second;
    assert first + "\n" + [' ', y, ' '] + path == s;
    assert s[0] == first[0] && s[|s| - 1] == path[|path| - 1];
    StripUnchanged(s);
    NoBreakInEntry(y, path);
    SplitTwo(first, second);
    ScanSecondLine(first, second);
  }

  /** Two lines without boundaries, the second non-empty, joined by `\n`
      split back into those two lines. */
  lemma SplitTwo(first: string, second: string)
    requires NoLineBreak(first) && NoLineBreak(second) && second != []
    ensures SplitLines(first + "\n" + second) == [first, second]
  {
    SplitJoin([first, second]);
    assert JoinLines([first, second]) == first + "\n" + second by {
      assert [first, second][1..] == [second];
    }
  }


  lemma ScanSecondLine(first: string, second: string)
    requires |first| >= 2 && !Dirty(first) && |second| >= 2 && Dirty(second)
    ensures ScanLines([first, second]) == Ok(true)
  {
    assert [first, second][1..] == [second];
  }

  lemma NoBreakInEntry(y: char, path: string)
    requires !IsSpace(y) && NoLineBreak(path)
    ensures NoLineBreak([' ', y, ' '] + path)
  {
    LineBreakIsSpace(y);
    var e := [' ', y, ' '] + path;
    forall i | 0 <= i < |e| ensures !IsLineBreak(e[i]) {
      if i >= 3 { assert e[i] == path[i - 3]; }
    }
  }
}
