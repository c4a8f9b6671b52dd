/**
 * The toplevel part of `Env::init` that decides where sibling binaries are found
 * (src/env.rs:92-131): the candidate directories around the executable, their
 * de-duplication, the `redo-unlocked` probe, and the new `PATH`.
 */
module SearchPath {
  import opened Wrappers
  import opened Paths

  const UNLOCKED_BIN := "redo-unlocked"
  const LIB_SUFFIX: seq<string> := ["..", "lib", "redo"]
  const UP_SUFFIX: seq<string> := ["..", "redo"]

  /**
   * The directories of the executable path and of its canonical form, in that order,
   * skipping a path that has no parent (the root). Equal directories are both kept.
   */
  function ExeDirs(exe: Components, canonical: Components): (r: seq<Components>)
    ensures |r| == (if exe == [] then 0 else 1) + (if canonical == [] then 0 else 1)
    ensures forall i :: 0 <= i < |r| ==> (ParentDir(exe) == Some(r[i]) || ParentDir(canonical) == Some(r[i]))
    ensures exe != [] ==> r[0] == exe[..|exe| - 1]
    ensures canonical != [] ==> r[|r| - 1] == canonical[..|canonical| - 1]
  {
    (if exe == [] then [] else [exe[..|exe| - 1]])
      + (if canonical == [] then [] else [canonical[..|canonical| - 1]])
  }

  /** Every `../lib/redo` variant, then every `../redo` variant, then the directories themselves. */
  function Candidates(dirs: seq<Components>): (r: seq<Components>)
    ensures |r| == 3 * |dirs|
    ensures forall i :: 0 <= i < |dirs| ==>
      r[i] == dirs[i] + LIB_SUFFIX && r[|dirs| + i] == dirs[i] + UP_SUFFIX && r[2 * |dirs| + i] == dirs[i]
  {
    seq(|dirs|, i requires 0 <= i < |dirs| => dirs[i] + LIB_SUFFIX)
      + seq(|dirs|, i requires 0 <= i < |dirs| => dirs[i] + UP_SUFFIX)
      + dirs
  }

  predicate NoDuplicates<T(==, !new)>(s: seq<T>) {
    forall i, j :: 0 <= i < j < |s| ==> s[i] != s[j]
  }

  /** The elements of `s` in order of first occurrence, each once. */
  function Dedup<T(==, !new)>(s: seq<T>): (r: seq<T>)
    ensures forall x :: x in r <==> x in s
    ensures NoDuplicates(r)
  {
    if s == [] then []
    else
      var d := Dedup(s[..|s| - 1]);
      var x := s[|s| - 1];
      assert forall y :: y in s <==> y in s[..|s| - 1] || y == x;
      if x in d then d else d + [x]
  }

  /** De-duplication keeps first occurrences: de-duplicating a prefix gives a prefix. */
  lemma {:induction false} DedupOfPrefix<T(!new)>(s: seq<T>, n: nat)
    requires n <= |s|
    ensures IsPrefix(Dedup(s[..n]), Dedup(s))
    decreases |s|
  {
    if n < |s| {
      var init := s[..|s| - 1];
      assert init[..n] == s[..n];
      DedupOfPrefix(init, n);
    } else {
      assert s[..n] == s;
    }
  }

  /** Whether some candidate directory already holds a `redo-unlocked` binary. */
  predicate AnyUnlocked(tryNames: seq<Components>, fs: set<Components>) {
    exists k :: k in tryNames && k + [UNLOCKED_BIN] in fs
  }

  /** The loop of src/env.rs:110-119: de-duplicate the candidates and probe for `redo-unlocked`. */
  method SelectSearchDirs(tryNames: seq<Components>, fs: set<Components>) returns (dirs: seq<Components>, foundUnlocked: bool)
    ensures dirs == Dedup(tryNames)
    ensures foundUnlocked <==> AnyUnlocked(tryNames, fs)
  {
    dirs := [];
    foundUnlocked := false;
    var i := 0;
    while i < |tryNames|
      invariant 0 <= i <= |tryNames|
      invariant dirs == Dedup(tryNames[..i])
      invariant foundUnlocked <==> AnyUnlocked(tryNames[..i], fs)
    {
      var k := tryNames[i];
      assert tryNames[..i + 1][..i] == tryNames[..i];
      assert forall y :: y in tryNames[..i + 1] <==> y in tryNames[..i] || y == k;
      if !foundUnlocked && k + [UNLOCKED_BIN] in fs {
        foundUnlocked := true;
      }
      if k !in dirs {
        dirs := dirs + [k];
      }
      i := i + 1;
    }
    assert tryNames[..i] == tryNames;
  }

  /** Each directory's text followed by `:`, in order. */
  function SearchPathPrefix(dirs: seq<Components>): string {
    if dirs == [] then ""
    else SearchPathPrefix(dirs[..|dirs| - 1]) + PathString(dirs[|dirs| - 1]) + ":"
  }

  /** The loop of src/env.rs:125-131: the new `PATH` is the directories, then the old `PATH`. */
  method JoinSearchPath(dirs: seq<Components>, oldPath: string) returns (newPath: string)
    ensures newPath == SearchPathPrefix(dirs) + oldPath
  {
    newPath := "";
    var i := 0;
    while i < |dirs|
      invariant 0 <= i <= |dirs|
      invariant newPath == SearchPathPrefix(dirs[..i])
    {
      assert dirs[..i + 1][..i] == dirs[..i];
      newPath := newPath + PathString(dirs[i]);
      newPath := newPath + ":";
      i := i + 1;
    }
    assert dirs[..i] == dirs;
    newPath := newPath + oldPath;
  }

  /** How a search path is read back: the entries between `:` separators. */
  function SplitSearchPath(s: string): (r: seq<string>)
    ensures |r| >= 1
  {
    if s == [] then [""]
    else if s[0] == ':' then [""] + SplitSearchPath(s[1..])
    else
      var rest := SplitSearchPath(s[1..]);
      [[s[0]] + rest[0]] + rest[1..]
  }

  /** The texts of the directories, in order. */
  function PathStrings(dirs: seq<Components>): (r: seq<string>)
    ensures |r| == |dirs| && forall i :: 0 <= i < |dirs| ==> r[i] == PathString(dirs[i])
  {
    seq(|dirs|, i requires 0 <= i < |dirs| => PathString(dirs[i]))
  }

  lemma {:induction false} SplitAfterEntry(d: string, rest: string)
    requires ':' !in d
    ensures SplitSearchPath(d + ":" + rest) == [d] + SplitSearchPath(rest)
  {
    var s := d + ":" + rest;
    if d == [] {
      assert s[1..] == rest;
    } else {
      assert s[1..] == d[1..] + ":" + rest;
      SplitAfterEntry(d[1..], rest);
      assert [s[0]] + d[1..] == d;
    }
  }

  lemma PrefixOfLast(dirs: seq<Components>, oldPath: string)
    requires dirs != []
    ensures SearchPathPrefix(dirs) + oldPath
      == SearchPathPrefix(dirs[..|dirs| - 1]) + (PathString(dirs[|dirs| - 1]) + ":" + oldPath)
  {
  }

  lemma PathStringsOfLast(dirs: seq<Components>)
    requires dirs != []
    ensures PathStrings(dirs) == PathStrings(dirs[..|dirs| - 1]) + [PathString(dirs[|dirs| - 1])]
  {
  }

  /**
   * The new `PATH` reads back as the prepended directories followed by the entries of the
   * old `PATH`, provided no directory's text contains `:`.
   */
  lemma {:induction false} SplitPrepended(dirs: seq<Components>, oldPath: string)
    requires forall i :: 0 <= i < |dirs| ==> ':' !in PathString(dirs[i])
    ensures SplitSearchPath(SearchPathPrefix(dirs) + oldPath) == PathStrings(dirs) + SplitSearchPath(oldPath)
  {
    if dirs == [] {
      assert SearchPathPrefix(dirs) + oldPath == oldPath;
    } else {
      var init := dirs[..|dirs| - 1];
      var last := PathString(dirs[|dirs| - 1]);
      var tail := last + ":" + oldPath;
      calc {
        SplitSearchPath(SearchPathPrefix(dirs) + oldPath);
        == { PrefixOfLast(dirs, oldPath); }
        SplitSearchPath(SearchPathPrefix(init) + tail);
        == { SplitPrepended(init, tail); }
        PathStrings(init) + SplitSearchPath(tail);
        == { SplitAfterEntry(last, oldPath); }
        PathStrings(init) + ([last] + SplitSearchPath(oldPath));
        == { PathStringsOfLast(dirs); }
        PathStrings(dirs) + SplitSearchPath(oldPath);
      }
    }
  }
}
