/** The Java library string operations the DOT writer relies on, on Dafny
    strings: `String.indexOf`, `String.lastIndexOf`, `String.contains`,
    Apache commons-io `FilenameUtils.getName` and `Integer.toString` for
    non-negative numbers. Searches use Java's convention: they give an index,
    or -1 when nothing is found. */
module JavaStrings {

  /** `p` occurs in `s` starting at index `i`. */
  predicate OccursAt(s: string, p: string, i: nat)
  {
    i + |p| <= |s| && s[i..i + |p|] == p
  }

  /** `p` is a contiguous piece of `s`. */
  predicate IsInfix(p: string, s: string)
  {
    exists i, j | 0 <= i <= j <= |s| :: s[i..j] == p
  }

  /** `s.lastIndexOf(c)`. */
  function LastIndexOf(s: string, c: char): (r: int)
    ensures -1 <= r < |s|
  {
    if s == [] then -1
    else if s[|s| - 1] == c then |s| - 1
    else LastIndexOf(s[..|s| - 1], c)
  }

  /** `s.lastIndexOf(c)` is the index of the last `c`, or -1 when `s` holds none. */
  lemma {:induction false} LastIndexOfLast(s: string, c: char)
    ensures 0 <= LastIndexOf(s, c) ==> s[LastIndexOf(s, c)] == c
    ensures forall k :: LastIndexOf(s, c) < k < |s| ==> s[k] != c
  {
    if s != [] && s[|s| - 1] != c {
      LastIndexOfLast(s[..|s| - 1], c);
    }
  }

  /** The index of the last `c` is determined by where `c` stands last. */
  lemma LastIndexOfAt(s: string, c: char, i: nat)
    requires i < |s| && s[i] == c
    requires forall k :: i < k < |s| ==> s[k] != c
    ensures LastIndexOf(s, c) == i
  {
    LastIndexOfLast(s, c);
  }

  /** A string without `c` gives -1. */
  lemma {:induction false} LastIndexOfAbsent(s: string, c: char)
    requires c !in s
    ensures LastIndexOf(s, c) == -1
  {
    if s != [] {
      assert s[|s| - 1] in s;
      assert forall k :: 0 <= k < |s| - 1 ==> s[..|s| - 1][k] == s[k];
      LastIndexOfAbsent(s[..|s| - 1], c);
    }
  }

  /** `s.lastIndexOf(c, from)`: the last `c` at or before index `from`; a
      negative `from` finds nothing. */
  function LastIndexOfFrom(s: string, c: char, from: int): (r: int)
    ensures -1 <= r < |s| && (0 <= r ==> r <= from)
  {
    if from < 0 then -1
    else if from >= |s| then LastIndexOf(s, c)
    else LastIndexOf(s[..from + 1], c)
  }

  /** `s.lastIndexOf(c, from)` is the index of the last `c` up to `from`, or
      -1 when there is none. */
  lemma LastIndexOfFromLast(s: string, c: char, from: int)
    ensures 0 <= LastIndexOfFrom(s, c, from) ==> s[LastIndexOfFrom(s, c, from)] == c
    ensures forall k :: LastIndexOfFrom(s, c, from) < k < |s| && k <= from ==> s[k] != c
  {
    if from >= |s| {
      LastIndexOfLast(s, c);
    } else if 0 <= from {
      LastIndexOfLast(s[..from + 1], c);
    }
  }

  /** `s.indexOf(c)`. */
  function IndexOf(s: string, c: char): (r: int)
    ensures -1 <= r < |s|
  {
    if s == [] then -1
    else if s[0] == c then 0
    else
      var k := IndexOf(s[1..], c);
      if k == -1 then -1 else k + 1
  }

  /** `s.indexOf(c)` is the index of the first `c`, or -1 when `s` holds none. */
  lemma {:induction false} IndexOfFirst(s: string, c: char)
    ensures 0 <= IndexOf(s, c) ==> s[IndexOf(s, c)] == c
    ensures forall k :: 0 <= k < |s| && (IndexOf(s, c) == -1 || k < IndexOf(s, c)) ==> s[k] != c
  {
    if s != [] && s[0] != c {
      IndexOfFirst(s[1..], c);
      assert forall k :: 0 < k < |s| ==> s[k] == s[1..][k - 1];
    }
  }

  /** The index of the first `c` is determined by where `c` stands first. */
  lemma IndexOfAt(s: string, c: char, i: nat)
    requires i < |s| && s[i] == c
    requires forall k :: 0 <= k < i ==> s[k] != c
    ensures IndexOf(s, c) == i
  {
    IndexOfFirst(s, c);
  }

  /** The index at which `s.indexOf(c, from)` starts looking: a negative
      start means 0 and a start past the end finds nothing. */
  function SearchStart(s: string, from: int): (k: nat)
    ensures k <= |s|
    ensures 0 <= from <= |s| ==> k == from
  {
    if from < 0 then 0 else if from > |s| then |s| else from
  }

  /** `s.indexOf(c, from)`. */
  function IndexOfFrom(s: string, c: char, from: int): (r: int)
    ensures -1 <= r < |s| && (0 <= r ==> SearchStart(s, from) <= r)
  {
    var start := SearchStart(s, from);
    var k := IndexOf(s[start..], c);
    if k == -1 then -1 else start + k
  }

  /** `s.indexOf(c, from)` is the index of the first `c` from where the search
      starts, or -1 when there is none. */
  lemma IndexOfFromFirst(s: string, c: char, from: int)
    ensures 0 <= IndexOfFrom(s, c, from) ==> s[IndexOfFrom(s, c, from)] == c
    ensures forall k :: SearchStart(s, from) <= k < |s| && (IndexOfFrom(s, c, from) == -1 || k < IndexOfFrom(s, c, from))
                        ==> s[k] != c
  {
    var start := SearchStart(s, from);
    IndexOfFirst(s[start..], c);
    assert forall k :: start <= k < |s| ==> s[k] == s[start..][k - start];
  }

  /** The first `c` at or after `from` is determined by where it stands. */
  lemma IndexOfFromAt(s: string, c: char, from: nat, i: nat)
    requires from <= i < |s| && s[i] == c
    requires forall k :: from <= k < i ==> s[k] != c
    ensures IndexOfFrom(s, c, from) == i
  {
    IndexOfAt(s[from..], c, i - from);
  }

  /** `s.indexOf(p)` for a string `p`. */
  function IndexOfString(s: string, p: string): (r: int)
    ensures -1 <= r && (0 <= r ==> r + |p| <= |s|)
    decreases |s|
  {
    if |s| < |p| then -1
    else if s[..|p|] == p then 0
    else
      var k := IndexOfString(s[1..], p);
      if k == -1 then -1 else k + 1
  }

  /** `s.indexOf(p)` finds the first occurrence of `p`, or -1 when there is none. */
  lemma {:induction false} IndexOfStringFirst(s: string, p: string)
    ensures IndexOfString(s, p) == -1 ==> forall j: nat :: !OccursAt(s, p, j)
    ensures 0 <= IndexOfString(s, p) ==>
      OccursAt(s, p, IndexOfString(s, p)) && forall j: nat :: j < IndexOfString(s, p) ==> !OccursAt(s, p, j)
    decreases |s|
  {
    if |s| >= |p| && s[..|p|] != p {
      IndexOfStringFirst(s[1..], p);
      OccursShift(s, p);
      assert !OccursAt(s, p, 0);
      assert forall j: nat :: 0 < j ==> (OccursAt(s, p, j) <==> OccursAt(s[1..], p, j - 1));
    }
  }

  /** The index of the first occurrence is determined by where `p` occurs first. */
  lemma IndexOfStringAt(s: string, p: string, i: nat)
    requires OccursAt(s, p, i) && forall j: nat :: j < i ==> !OccursAt(s, p, j)
    ensures IndexOfString(s, p) == i
  {
    IndexOfStringFirst(s, p);
  }

  /** Before the first occurrence of a non-empty `p`, the prefix of `s` holds no `p`. */
  lemma NoOccurrenceBefore(s: string, p: string, k: nat)
    requires 0 < |p| && k <= |s| && forall j: nat :: j < k ==> !OccursAt(s, p, j)
    ensures forall j: nat :: !OccursAt(s[..k], p, j)
  {
    forall j: nat | OccursAt(s[..k], p, j)
      ensures false
    {
      OccursInPrefix(s, p, k, j);
    }
  }

  /** `s.contains(p)`, which Java defines as `s.indexOf(p) >= 0`. */
  predicate Contains(s: string, p: string)
  {
    IndexOfString(s, p) >= 0
  }

  /** An occurrence in `s[1..]` is an occurrence one place further on in `s`. */
  lemma OccursShift(s: string, p: string)
    requires |s| > 0
    ensures forall j: nat :: OccursAt(s[1..], p, j) <==> OccursAt(s, p, j + 1)
  {
    forall j: nat
      ensures OccursAt(s[1..], p, j) <==> OccursAt(s, p, j + 1)
    {
      if j + |p| <= |s[1..]| {
        assert s[1..][j..j + |p|] == s[j + 1..j + 1 + |p|];
      }
    }
  }

  /** An occurrence inside a prefix of `s` is an occurrence in `s`. */
  lemma OccursInPrefix(s: string, p: string, n: nat, j: nat)
    requires n <= |s| && OccursAt(s[..n], p, j)
    ensures OccursAt(s, p, j)
  {
    assert s[..n][j..j + |p|] == s[j..j + |p|];
  }

  /** `FilenameUtils.getName(path)`: the text after the last separator, `/`
      or `\`, or the whole path when it has none. */
  function FileName(path: string): (r: string)
    ensures |r| <= |path| && r == path[|path| - |r|..]
  {
    var slash, backslash := LastIndexOf(path, '/'), LastIndexOf(path, '\\');
    var lastSeparator := if slash < backslash then backslash else slash;
    path[lastSeparator + 1..]
  }

  /** The file name holds no separator and follows one, unless the path has
      none, in which case the name is the whole path. */
  lemma FileNameAfterSeparator(path: string)
    ensures '/' !in FileName(path) && '\\' !in FileName(path)
    ensures |FileName(path)| < |path| ==> path[|path| - |FileName(path)| - 1] in "/\\"
    ensures '/' !in path && '\\' !in path ==> FileName(path) == path
  {
    var slash, backslash := LastIndexOf(path, '/'), LastIndexOf(path, '\\');
    var start := (if slash < backslash then backslash else slash) + 1;
    var name := path[start..];
    assert FileName(path) == name;
    LastIndexOfLast(path, '/');
    LastIndexOfLast(path, '\\');
    forall k | 0 <= k < |name|
      ensures name[k] != '/' && name[k] != '\\'
    {
      assert name[k] == path[start + k];
    }
    if '/' !in path && '\\' !in path {
      LastIndexOfAbsent(path, '/');
      LastIndexOfAbsent(path, '\\');
    }
  }

  /** The decimal digit for `d`. */
  function DigitChar(d: nat): (c: char)
    requires d < 10
    ensures '0' <= c <= '9'
  {
    "0123456789"[d]
  }

  /** `Integer.toString(n)` for a non-negative `n`: its decimal digits, no sign,
      no leading zero. */
  function NatToString(n: nat): (r: string)
    ensures 1 <= |r|
    ensures |r| == 1 <==> n < 10
    ensures forall i :: 0 <= i < |r| ==> '0' <= r[i] <= '9'
  {
    if n < 10 then [DigitChar(n)] else NatToString(n / 10) + [DigitChar(n % 10)]
  }

  /** Different numbers print differently. */
  lemma {:induction false} NatToStringInjective(a: nat, b: nat)
    requires NatToString(a) == NatToString(b)
    ensures a == b
  {
    if 10 <= a && 10 <= b {
      var qa, qb := NatToString(a / 10), NatToString(b / 10);
      var da, db := DigitChar(a % 10), DigitChar(b % 10);
      assert qa + [da] == qb + [db];
      assert qa == (qa + [da])[..|qa|] && qb == (qb + [db])[..|qb|];
      NatToStringInjective(a / 10, b / 10);
      assert da == db by {
        assert da == (qa + [da])[|qa|];
      }
      DigitCharInjective(a % 10, b % 10);
    }
  }

  /** Different digits are different characters. */
  lemma DigitCharInjective(d: nat, e: nat)
    requires d < 10 && e < 10 && DigitChar(d) == DigitChar(e)
    ensures d == e
  {
  }
}
