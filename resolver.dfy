/**
 * The base-directory resolver of `Env::init` (src/env.rs:135-177): the parent directories of
 * the targets, their common ancestor with the working directory, and the walk upward to the
 * nearest directory holding a `.redo` child. The filesystem is the set of paths that exist.
 */
module Resolver {
  import opened Wrappers
  import opened RedoErrors
  import opened Paths

  const MARKER := ".redo"

  /** Whether `dir` has a `.redo` child in the filesystem `fs`. */
  predicate HasMarker(dir: Components, fs: set<Components>) {
    dir + [MARKER] in fs
  }

  /** The deepest ancestor-or-self of `p` with a `.redo` child, searching upward to the root. */
  function MarkedAncestor(p: Components, fs: set<Components>): Option<Components>
    decreases |p|
  {
    if HasMarker(p, fs) then Some(p)
    else if p == [] then None
    else MarkedAncestor(p[..|p| - 1], fs)
  }

  /** The base chosen for the common ancestor `orig`: the nearest marked ancestor, else `orig`. */
  function ResolvedBase(orig: Components, fs: set<Components>): Components {
    match MarkedAncestor(orig, fs)
    case Some(b) => b
    case None => orig
  }

  /**
   * What `MarkedAncestor` finds: a marked ancestor-or-self such that no deeper ancestor is
   * marked; and it finds nothing exactly when no ancestor up to the root is marked.
   */
  lemma {:induction false} MarkedAncestorIsNearest(p: Components, fs: set<Components>)
    ensures MarkedAncestor(p, fs).Some? ==>
      var b := MarkedAncestor(p, fs).value;
      IsPrefix(b, p) && HasMarker(b, fs) &&
      forall k :: |b| < k <= |p| ==> !HasMarker(p[..k], fs)
    ensures MarkedAncestor(p, fs).None? <==> forall k :: 0 <= k <= |p| ==> !HasMarker(p[..k], fs)
    decreases |p|
  {
    if !HasMarker(p, fs) && p != [] {
      var q := p[..|p| - 1];
      MarkedAncestorIsNearest(q, fs);
      assert forall k :: 0 <= k <= |q| ==> q[..k] == p[..k];
      assert p[..|p|] == p;
    } else if !HasMarker(p, fs) {
      assert p[..0] == p;
    }
  }

  /** The upward walk of src/env.rs:160-176. */
  method FindBase(orig: Components, fs: set<Components>) returns (base: Components)
    ensures base == ResolvedBase(orig, fs)
    ensures IsPrefix(base, orig)
  {
    var b := orig;
    var found := false;
    while true
      invariant IsPrefix(b, orig)
      invariant MarkedAncestor(b, fs) == MarkedAncestor(orig, fs)
      decreases |b|
    {
      if HasMarker(b, fs) {
        found := true;
        break;
      }
      if b == [] {
        break;
      }
      b := b[..|b| - 1];
    }
    base := if found then b else orig;
  }

  /**
   * The absolute parent directory of each target, or `InvalidTarget` for the first target
   * that has no parent (src/env.rs:143-153).
   */
  function ParentDirsOf(targets: seq<PathName>, cwd: Components): Result<seq<Components>, RedoError> {
    if targets == [] then Success([])
    else
      match Parent(targets[0])
      case None => Failure(InvalidTarget(NameString(targets[0])))
      case Some(par) =>
        match ParentDirsOf(targets[1..], cwd)
        case Failure(e) => Failure(e)
        case Success(ds) => Success([AbsPath(cwd, par)] + ds)
  }

  function PrependDirs(ds: seq<Components>, r: Result<seq<Components>, RedoError>): Result<seq<Components>, RedoError> {
    match r
    case Success(rest) => Success(ds + rest)
    case Failure(e) => Failure(e)
  }

  lemma PrependNothing(r: Result<seq<Components>, RedoError>)
    ensures PrependDirs([], r) == r
  {
    if r.Success? {
      assert [] + r.value == r.value;
    }
  }

  lemma PrependInTurn(ds: seq<Components>, d: Components, r: Result<seq<Components>, RedoError>)
    ensures PrependDirs(ds, PrependDirs([d], r)) == PrependDirs(ds + [d], r)
  {
    if r.Success? {
      assert ds + ([d] + r.value) == (ds + [d]) + r.value;
    }
  }

  /** The loop of src/env.rs:143-153. */
  method ParentDirs(targets: seq<PathName>, cwd: Components) returns (r: Result<seq<Components>, RedoError>)
    ensures r == ParentDirsOf(targets, cwd)
  {
    var dirs: seq<Components> := [];
    var i := 0;
    assert targets[0..] == targets;
    PrependNothing(ParentDirsOf(targets, cwd));
    while i < |targets|
      invariant 0 <= i <= |targets|
      invariant ParentDirsOf(targets, cwd) == PrependDirs(dirs, ParentDirsOf(targets[i..], cwd))
    {
      assert targets[i..][0] == targets[i] && targets[i..][1..] == targets[i + 1..];
      match Parent(targets[i])
      case None =>
        return Failure(InvalidTarget(NameString(targets[i])));
      case Some(par) =>
        PrependInTurn(dirs, AbsPath(cwd, par), ParentDirsOf(targets[i + 1..], cwd));
        dirs := dirs + [AbsPath(cwd, par)];
      i := i + 1;
    }
    assert targets[i..] == [] && dirs + [] == dirs;
    r := Success(dirs);
  }

  /**
   * `ParentDirsOf` fails exactly when some target has no parent, with the first such target;
   * otherwise it gives, in order, the absolute parent of every target.
   */
  lemma {:induction false} ParentDirsOfMeaning(targets: seq<PathName>, cwd: Components)
    ensures ParentDirsOf(targets, cwd).Success? <==> forall i :: 0 <= i < |targets| ==> targets[i].parts != []
    ensures ParentDirsOf(targets, cwd).Success? ==>
      var ds := ParentDirsOf(targets, cwd).value;
      |ds| == |targets| &&
      forall i :: 0 <= i < |targets| ==> ds[i] == AbsPath(cwd, Parent(targets[i]).value)
    ensures ParentDirsOf(targets, cwd).Failure? ==>
      exists i :: 0 <= i < |targets| && targets[i].parts == [] &&
        ParentDirsOf(targets, cwd).error == InvalidTarget(NameString(targets[i])) &&
        forall j :: 0 <= j < i ==> targets[j].parts != []
  {
    if targets != [] {
      var rest := targets[1..];
      ParentDirsOfMeaning(rest, cwd);
      assert forall i :: 1 <= i < |targets| ==> targets[i] == rest[i - 1];
      if targets[0].parts != [] && ParentDirsOf(rest, cwd).Failure? {
        var i :| 0 <= i < |rest| && rest[i].parts == [] &&
          ParentDirsOf(rest, cwd).error == InvalidTarget(NameString(rest[i])) &&
          forall j :: 0 <= j < i ==> rest[j].parts != [];
        assert targets[i + 1] == rest[i];
      }
    }
  }

  /** The target list actually used: the given one, or `all` when it is empty. */
  function EffectiveTargets(targets: seq<PathName>): (r: seq<PathName>)
    ensures targets == [] ==> r == [ALL]
    ensures targets != [] ==> r == targets
  {
    if targets == [] then [ALL] else targets
  }

  /** The base directory that `Env::init` computes for `targets` run from `cwd`. */
  function BaseFor(targets: seq<PathName>, cwd: Components, fs: set<Components>): Result<Components, RedoError> {
    match ParentDirsOf(EffectiveTargets(targets), cwd)
    case Failure(e) => Failure(e)
    case Success(ds) => Success(ResolvedBase(CommonAll(ds + [cwd]), fs))
  }

  /**
   * The resolved base: let `c` be the longest common ancestor of the targets' parent
   * directories and `cwd`. The base is the deepest ancestor-or-self of `c` with a `.redo`
   * child; when none has one, the base is `c` itself.
   */
  lemma BaseForMeaning(targets: seq<PathName>, cwd: Components, fs: set<Components>)
    requires BaseFor(targets, cwd, fs).Success?
    ensures var ds := ParentDirsOf(EffectiveTargets(targets), cwd).value;
      var c := CommonAll(ds + [cwd]);
      var base := BaseFor(targets, cwd, fs).value;
      && IsPrefix(c, cwd)
      && (forall i :: 0 <= i < |ds| ==> IsPrefix(c, ds[i]))
      && (forall p :: IsPrefix(p, cwd) && (forall i :: 0 <= i < |ds| ==> IsPrefix(p, ds[i])) ==> IsPrefix(p, c))
      && IsPrefix(base, c)
      && (HasMarker(base, fs) || ((forall k :: 0 <= k <= |c| ==> !HasMarker(c[..k], fs)) && base == c))
      && (forall k :: |base| < k <= |c| ==> !HasMarker(c[..k], fs))
  {
    var ds := ParentDirsOf(EffectiveTargets(targets), cwd).value;
    var all := ds + [cwd];
    var c := CommonAll(all);
    assert all[|ds|] == cwd;
    assert forall i :: 0 <= i < |ds| ==> all[i] == ds[i];
    forall p | IsPrefix(p, cwd) && (forall i :: 0 <= i < |ds| ==> IsPrefix(p, ds[i]))
      ensures IsPrefix(p, c)
    {
      CommonAllLongest(all, p);
    }
    MarkedAncestorIsNearest(c, fs);
  }

  /** Fails exactly when some target (after defaulting to `all`) has no parent. */
  lemma BaseForFails(targets: seq<PathName>, cwd: Components, fs: set<Components>)
    ensures BaseFor(targets, cwd, fs).Failure? <==>
      exists i :: 0 <= i < |targets| && targets[i].parts == []
    ensures BaseFor(targets, cwd, fs).Failure? ==> BaseFor(targets, cwd, fs).error.InvalidTarget?
  {
    ParentDirsOfMeaning(EffectiveTargets(targets), cwd);
  }

  /** With no targets, the walk starts at the working directory. */
  lemma NoTargetsStartAtCwd(cwd: Components, fs: set<Components>)
    ensures BaseFor([], cwd, fs) == Success(ResolvedBase(cwd, fs))
  {
    assert ALL.parts[..0] == [];
    assert Parent(ALL) == Some(PathName(false, []));
    assert AbsPath(cwd, PathName(false, [])) == cwd;
    assert [ALL][1..] == [] && [cwd] + [] == [cwd];
    assert ParentDirsOf([ALL], cwd) == Success([cwd]);
    var all := [cwd] + [cwd];
    assert all[..1] == [cwd];
    CommonPrefixSelf(cwd);
    assert CommonAll(all) == cwd;
  }

  /**
   * Targets `a/b/out` and `a/c/out` run from `/proj`, with no `.redo` anywhere: the common
   * ancestor includes the working directory, so the base is `/proj`.
   */
  lemma TwoSiblingTargetsFromProj()
    ensures BaseFor([PathName(false, ["a", "b", "out"]), PathName(false, ["a", "c", "out"])], ["proj"], {})
      == Success(["proj"])
  {
    var t1 := PathName(false, ["a", "b", "out"]);
    var t2 := PathName(false, ["a", "c", "out"]);
    assert t1.parts[..2] == ["a", "b"] && t2.parts[..2] == ["a", "c"];
    assert Parent(t2) == Some(PathName(false, ["a", "c"]));
    assert Parent(t1) == Some(PathName(false, ["a", "b"]));
    assert [t2][1..] == [] && [t1, t2][1..] == [t2];
    assert ["proj"] + ["a", "c"] == ["proj", "a", "c"] && ["proj"] + ["a", "b"] == ["proj", "a", "b"];
    assert [["proj", "a", "c"]] + [] == [["proj", "a", "c"]];
    assert [["proj", "a", "b"]] + [["proj", "a", "c"]] == [["proj", "a", "b"], ["proj", "a", "c"]];
    assert ParentDirsOf([t2], ["proj"]) == Success([["proj", "a", "c"]]);
    assert ParentDirsOf([t1, t2], ["proj"]) == Success([["proj", "a", "b"], ["proj", "a", "c"]]);
    var all := [["proj", "a", "b"], ["proj", "a", "c"], ["proj"]];
    assert [["proj", "a", "b"], ["proj", "a", "c"]] + [["proj"]] == all;
    assert all[..2][..1] == [["proj", "a", "b"]];
    assert CommonPrefix(["a", "b"], ["a", "c"]) == ["a"];
    assert CommonPrefix(["proj", "a", "b"], ["proj", "a", "c"]) == ["proj", "a"];
    assert CommonAll(all[..2]) == ["proj", "a"];
    assert CommonPrefix(["proj", "a"], ["proj"]) == ["proj"];
    assert CommonAll(all) == ["proj"];
    assert MarkedAncestor([], {}) == None;
    assert MarkedAncestor(["proj"], {}) == None;
  }
}
