/** The search for a file name that is not taken (src/utils.cpp). */
module FileNames {
  import opened Text

  /** `QString::lastIndexOf('.')`. */
  function LastDot(path: string): (i: int)
    ensures -1 <= i < |path|
    ensures i >= 0 ==> path[i] == '.'
    ensures i < 0 <==> '.' !in path
  {
    if path == [] then -1
    else if path[|path| - 1] == '.' then |path| - 1
    else LastDot(path[..|path| - 1])
  }

  function Suffix(noSpace: bool, num: nat): string {
    if noSpace then "_" + Decimal(num) else " (" + Decimal(num) + ")"
  }

  /** `QString::insert`; a negative position inserts nothing. */
  function Insert(path: string, at: int, s: string): string
    requires at <= |path|
  {
    if at < 0 then path else path[..at] + s + path[at..]
  }

  /** The path with a number put in front of its extension. */
  function Candidate(path: string, noSpace: bool, num: nat): string {
    Insert(path, LastDot(path), Suffix(noSpace, num))
  }

  lemma {:induction false} LastDotIs(path: string, dot: nat)
    requires dot < |path| && path[dot] == '.' && forall k :: dot < k < |path| ==> path[k] != '.'
    ensures LastDot(path) == dot
  {
    if dot < |path| - 1 {
      assert path[|path| - 1] != '.';
      LastDotIs(path[..|path| - 1], dot);
    }
  }

  lemma InsertBetween(stem: string, rest: string, s: string)
    ensures Insert(stem + rest, |stem|, s) == stem + s + rest
  {
    assert (stem + rest)[..|stem|] == stem && (stem + rest)[|stem|..] == rest;
  }

  /** The number stands in front of the last '.' and what follows it. */
  lemma CandidateForm(stem: string, rest: string, noSpace: bool, num: nat)
    requires rest != [] && rest[0] == '.' && '.' !in rest[1..]
    ensures var number := Decimal(num);
      && Candidate(stem + rest, noSpace, num) == stem + (if noSpace then "_" + number else " (" + number + ")") + rest
      && Value(number) == num
  {
    hide Insert, LastDot, Decimal;
    var path := stem + rest;
    forall k | |stem| < k < |path| ensures path[k] != '.' {
      assert path[k] == rest[1..][k - |stem| - 1];
    }
    LastDotIs(path, |stem|);
    InsertBetween(stem, rest, Suffix(noSpace, num));
    DecimalValue(num);
  }

  lemma CandidatesDiffer(path: string, noSpace: bool, m: nat, n: nat)
    requires '.' in path && Candidate(path, noSpace, m) == Candidate(path, noSpace, n)
    ensures m == n
  {
    var dot := LastDot(path);
    var s, t := Suffix(noSpace, m), Suffix(noSpace, n);
    assert |s| == |t|;
    assert Candidate(path, noSpace, m)[dot..dot + |s|] == s;
    assert Candidate(path, noSpace, n)[dot..dot + |t|] == t;
    if noSpace {
      assert s[1..] == Decimal(m) && t[1..] == Decimal(n);
    } else {
      assert s[2..|s| - 1] == Decimal(m) && t[2..|t| - 1] == Decimal(n);
    }
    DecimalInjective(m, n);
  }

  /** Pigeonhole: distinct names that are all taken are no more than the files. */
  lemma {:induction false} DistinctNamesFit(names: seq<string>, files: set<string>)
    requires forall i, j :: 0 <= i < j < |names| ==> names[i] != names[j]
    requires forall i :: 0 <= i < |names| ==> names[i] in files
    ensures |names| <= |files|
  {
    if names != [] {
      var last := names[|names| - 1];
      DistinctNamesFit(names[..|names| - 1], files - {last});
    }
  }

  /** As many candidates as are all taken, there are files. */
  lemma TakenAreFiles(path: string, noSpace: bool, files: set<string>, num: nat)
    requires '.' in path && num >= 2
    requires forall k :: 2 <= k < num ==> Candidate(path, noSpace, k) in files
    ensures num - 2 <= |files|
  {
    hide Candidate;
    var names := seq(num - 2, i requires 0 <= i < num - 2 => Candidate(path, noSpace, i + 2));
    forall i, j | 0 <= i < j < |names| ensures names[i] != names[j] {
      if names[i] == names[j] {
        CandidatesDiffer(path, noSpace, i + 2, j + 2);
      }
    }
    DistinctNamesFit(names, files);
  }

  /** A taken path finds a free candidate if and only if it has a '.': without one every candidate is the path. */
  lemma FreeCandidateIff(path: string, noSpace: bool, files: set<string>)
    requires path in files
    ensures (exists num: nat :: num >= 2 && Candidate(path, noSpace, num) !in files) <==> '.' in path
  {
    if '.' in path {
      if forall num: nat :: num >= 2 ==> Candidate(path, noSpace, num) in files {
        TakenAreFiles(path, noSpace, files, |files| + 3);
      }
    } else {
      assert forall num: nat :: Candidate(path, noSpace, num) == path;
    }
  }

  /** Without an extension the search tries the taken name itself, again and again. */
  lemma NoExtensionNoCandidate(path: string, noSpace: bool, num: nat)
    requires '.' !in path
    ensures Candidate(path, noSpace, num) == path
  {
    assert LastDot(path) < 0;
  }

  /** Keep a free path; otherwise put the smallest free number, from 2 on, in front of the extension. */
  method FindBestFilename(path: string, noSpace: bool, files: set<string>) returns (strPath: string)
    requires path in files ==> '.' in path
    ensures strPath !in files
    ensures path !in files ==> strPath == path
    ensures path in files ==> exists num: nat ::
      num >= 2 && strPath == Candidate(path, noSpace, num)
      && forall k :: 2 <= k < num ==> Candidate(path, noSpace, k) in files
  {
    var num := 2;
    strPath := path;
    if path !in files {
      return;
    }
    var dotPos := LastDot(path);
    while true
      invariant num >= 2
      invariant forall k :: 2 <= k < num ==> Candidate(path, noSpace, k) in files
      decreases |files| + 2 - num
    {
      TakenAreFiles(path, noSpace, files, num);
      var numStr := if noSpace then "_" + Decimal(num) else " (" + Decimal(num) + ")";
      num := num + 1;
      var testPath := Insert(path, dotPos, numStr);
      assert testPath == Candidate(path, noSpace, num - 1);
      if testPath !in files {
        strPath := testPath;
        return;
      }
      TakenAreFiles(path, noSpace, files, num);
    }
  }
}
