/** Newline-separated text, as produced by JavaScript's `array.join('\n')` and
    Python's `'\n'.join(list)`, and its inverse `text.split('\n')`. */
module Lines {

  /** Joins `lines` with a newline between neighbours; the empty list gives "". */
  function JoinLines(lines: seq<string>): (r: string)
    ensures |lines| == 0 ==> r == ""
    ensures |lines| >= 1 ==> lines[0] <= r
    ensures |lines| >= 2 ==> |lines[0]| < |r| && r[|lines[0]|] == '\n'
  {
    if |lines| == 0 then ""
    else if |lines| == 1 then lines[0]
    else lines[0] + "\n" + JoinLines(lines[1..])
  }

  /** Position of the first occurrence of `c` in `s`. */
  function FirstIndex(s: string, c: char): (i: nat)
    requires c in s
    ensures i < |s| && s[i] == c && c !in s[..i]
  {
    if s[0] == c then 0
    else
      assert c in s[1..] by { assert s == [s[0]] + s[1..]; }
      var j := FirstIndex(s[1..], c);
      assert s[..j + 1] == [s[0]] + s[1..][..j];
      j + 1
  }

  /** Splits `s` at every newline; like `split('\n')`, the result is never empty
      and the empty text gives one empty line. */
  function SplitLines(s: string): (r: seq<string>)
    ensures |r| >= 1
    decreases |s|
  {
    if '\n' !in s then [s]
    else
      var i := FirstIndex(s, '\n');
      [s[..i]] + SplitLines(s[i + 1..])
  }

  /** None of `lines` contains a newline. */
  predicate NoNewlines(lines: seq<string>) {
    forall i :: 0 <= i < |lines| ==> '\n' !in lines[i]
  }

  lemma FirstIndexUnique(s: string, c: char, i: nat)
    requires i < |s| && s[i] == c && c !in s[..i]
    ensures FirstIndex(s, c) == i
  {
    var j := FirstIndex(s, c);
    assert forall k :: 0 <= k < i ==> s[..i][k] == s[k];
    assert forall k :: 0 <= k < j ==> s[..j][k] == s[k];
  }

  /** A text whose first newline is at `i` splits into its first `i` characters
      followed by the lines after that newline. */
  lemma SplitAt(s: string, i: nat)
    requires i < |s| && s[i] == '\n' && '\n' !in s[..i]
    ensures SplitLines(s) == [s[..i]] + SplitLines(s[i + 1..])
  {
    FirstIndexUnique(s, '\n', i);
  }

  /** Two texts without a newline concatenate to a text without one. */
  lemma PlainConcat(a: string, b: string)
    requires '\n' !in a && '\n' !in b
    ensures '\n' !in a + b
  {
    forall i | 0 <= i < |a + b| ensures (a + b)[i] != '\n' {
      if i < |a| {
        assert (a + b)[i] == a[i];
      } else {
        assert (a + b)[i] == b[i - |a|];
      }
    }
  }

  /** Splitting a text that holds no newline gives that text as its only line. */
  lemma SplitPlain(s: string)
    requires '\n' !in s
    ensures SplitLines(s) == [s]
  {
  }

  /** Joining a non-empty list and splitting again gives the list back, provided
      no element holds a newline. */
  lemma {:induction false} SplitJoin(lines: seq<string>)
    requires |lines| >= 1 && NoNewlines(lines)
    ensures SplitLines(JoinLines(lines)) == lines
  {
    if |lines| > 1 {
      var head, rest := lines[0], JoinLines(lines[1..]);
      assert '\n' !in head;
      GluePlain(head, rest);
      SplitJoin(lines[1..]);
      assert lines == [head] + lines[1..];
    }
  }

  /** Splitting and joining again gives the text back. */
  lemma {:induction false} JoinSplit(s: string)
    ensures JoinLines(SplitLines(s)) == s
    decreases |s|
  {
    if '\n' in s {
      var i := FirstIndex(s, '\n');
      var rest := SplitLines(s[i + 1..]);
      JoinSplit(s[i + 1..]);
      assert ([s[..i]] + rest)[1..] == rest;
      assert s == s[..i] + "\n" + s[i + 1..];
    }
  }

  /** A newline glues two texts: the lines of `a + "\n" + b` are the lines of `a`
      followed by the lines of `b`. */
  lemma {:induction false} SplitGlue(a: string, b: string)
    ensures SplitLines(a + "\n" + b) == SplitLines(a) + SplitLines(b)
    decreases |a|
  {
    if '\n' !in a {
      GluePlain(a, b);
    } else {
      var i := FirstIndex(a, '\n');
      GlueStep(a, b, i);
      SplitGlue(a[i + 1..], b);
      Regroup(a[..i], SplitLines(a[i + 1..]), SplitLines(b));
    }
  }

  lemma Regroup(x: string, ys: seq<string>, zs: seq<string>)
    ensures [x] + (ys + zs) == ([x] + ys) + zs
  {
  }

  lemma GluePlain(a: string, b: string)
    requires '\n' !in a
    ensures SplitLines(a + "\n" + b) == [a] + SplitLines(b)
  {
    var s := a + "\n" + b;
    assert s[..|a|] == a;
    assert s[|a|] == '\n';
    SplitAt(s, |a|);
    assert s[|a| + 1..] == b;
  }

  lemma GlueStep(a: string, b: string, i: nat)
    requires i < |a| && a[i] == '\n' && '\n' !in a[..i]
    ensures SplitLines(a + "\n" + b) == [a[..i]] + SplitLines(a[i + 1..] + "\n" + b)
    ensures SplitLines(a) == [a[..i]] + SplitLines(a[i + 1..])
  {
    var s := a + "\n" + b;
    assert s[..i] == a[..i];
    assert s[i] == '\n';
    SplitAt(s, i);
    SplitAt(a, i);
    assert s[i + 1..] == a[i + 1..] + "\n" + b;
  }

  /** The lines of every part, in order. */
  function SplitEach(parts: seq<string>): (lines: seq<string>) {
    if |parts| == 0 then [] else SplitLines(parts[0]) + SplitEach(parts[1..])
  }

  /** Splitting joined parts gives the lines of each part in turn. */
  lemma {:induction false} SplitJoinParts(parts: seq<string>)
    requires |parts| >= 1
    ensures SplitLines(JoinLines(parts)) == SplitEach(parts)
  {
    if |parts| == 1 {
      assert parts[1..] == [];
    } else {
      SplitGlue(parts[0], JoinLines(parts[1..]));
      SplitJoinParts(parts[1..]);
    }
  }

  lemma {:induction false} SplitEachAppend(a: seq<string>, b: seq<string>)
    ensures SplitEach(a + b) == SplitEach(a) + SplitEach(b)
  {
    if |a| == 0 {
      assert a + b == b;
    } else {
      assert (a + b)[1..] == a[1..] + b;
      SplitEachAppend(a[1..], b);
    }
  }

  lemma {:induction false} SplitEachPlain(parts: seq<string>)
    requires NoNewlines(parts)
    ensures SplitEach(parts) == parts
  {
    if |parts| > 0 {
      SplitPlain(parts[0]);
      SplitEachPlain(parts[1..]);
    }
  }
}
