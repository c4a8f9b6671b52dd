/**
 * Paths as sequences of components. An absolute directory is the list of its components
 * below the filesystem root (the root itself is `[]`); a target name may be rooted or relative.
 * Components are compared as they are, as Rust's `Path` equality does: `..` is not resolved.
 */
module Paths {
  import opened Wrappers

  type Components = seq<string>

  /** A target as given on the command line: rooted (`/a/b`) or relative (`a/b`). */
  datatype PathName = PathName(rooted: bool, parts: seq<string>)

  /** The implicit target used when none is given. */
  const ALL := PathName(false, ["all"])

  /** `p` is a prefix of `q`. */
  predicate IsPrefix<T(==)>(p: seq<T>, q: seq<T>) {
    |p| <= |q| && q[..|p|] == p
  }

  /** `Path::parent`: the path without its last component; none for the root or the empty path. */
  function Parent(p: PathName): (r: Option<PathName>)
    ensures r.None? <==> p.parts == []
    ensures r.Some? ==> r.value.rooted == p.rooted && r.value.parts + [p.parts[|p.parts| - 1]] == p.parts
  {
    if p.parts == [] then None else Some(PathName(p.rooted, p.parts[..|p.parts| - 1]))
  }

  /** The parent of an absolute path, or none for the root. */
  function ParentDir(p: Components): (r: Option<Components>)
    ensures r.None? <==> p == []
    ensures r.Some? ==> IsPrefix(r.value, p) && |r.value| == |p| - 1
  {
    if p == [] then None else Some(p[..|p| - 1])
  }

  /**
   * `helpers::abs_path(cwd, p)` (src/helpers.rs is not part of this model): a rooted path
   * stands for itself, a relative one is appended to the working directory.
   */
  function AbsPath(cwd: Components, p: PathName): Components {
    if p.rooted then p.parts else cwd + p.parts
  }

  /** Components joined with `/` separators after each but the last. */
  function Joined(parts: seq<string>): string {
    if |parts| == 0 then ""
    else if |parts| == 1 then parts[0]
    else Joined(parts[..|parts| - 1]) + "/" + parts[|parts| - 1]
  }

  /** The text of an absolute path: `/` for the root, otherwise `/` before each component. */
  function PathString(p: Components): (r: string)
    ensures 0 < |r| && r[0] == '/'
  {
    if p == [] then "/" else "/" + Joined(p)
  }

  /** The text of a target name, as carried by an `InvalidTarget` error. */
  function NameString(p: PathName): string {
    if p.rooted then PathString(p.parts) else Joined(p.parts)
  }

  /** The longest common leading run of components of two paths. */
  function CommonPrefix(a: Components, b: Components): (r: Components)
    ensures IsPrefix(r, a) && IsPrefix(r, b)
  {
    if a == [] || b == [] || a[0] != b[0] then []
    else [a[0]] + CommonPrefix(a[1..], b[1..])
  }

  /** `common_path::common_path_all`, folded left to right over a non-empty list. */
  function CommonAll(ps: seq<Components>): (r: Components)
    requires |ps| > 0
    ensures forall i :: 0 <= i < |ps| ==> IsPrefix(r, ps[i])
  {
    if |ps| == 1 then ps[0]
    else
      var c := CommonAll(ps[..|ps| - 1]);
      var r := CommonPrefix(c, ps[|ps| - 1]);
      assert forall i :: 0 <= i < |ps| - 1 ==> IsPrefix(c, ps[i]);
      r
  }

  /** Every common prefix of two paths is a prefix of `CommonPrefix`: it is the longest. */
  lemma {:induction false} CommonPrefixLongest(a: Components, b: Components, p: Components)
    requires IsPrefix(p, a) && IsPrefix(p, b)
    ensures IsPrefix(p, CommonPrefix(a, b))
  {
    if p != [] {
      assert a[0] == p[0] == b[0];
      assert IsPrefix(p[1..], a[1..]) && IsPrefix(p[1..], b[1..]);
      CommonPrefixLongest(a[1..], b[1..], p[1..]);
      assert p == [p[0]] + p[1..];
    }
  }

  /** Every path that is a prefix of all of `ps` is a prefix of `CommonAll(ps)`. */
  lemma {:induction false} CommonAllLongest(ps: seq<Components>, p: Components)
    requires |ps| > 0
    requires forall i :: 0 <= i < |ps| ==> IsPrefix(p, ps[i])
    ensures IsPrefix(p, CommonAll(ps))
  {
    if |ps| > 1 {
      var init := ps[..|ps| - 1];
      assert forall i :: 0 <= i < |init| ==> init[i] == ps[i];
      CommonAllLongest(init, p);
      CommonPrefixLongest(CommonAll(init), ps[|ps| - 1], p);
    }
  }

  /** A path has nothing in common with itself but itself. */
  lemma {:induction false} CommonPrefixSelf(a: Components)
    ensures CommonPrefix(a, a) == a
  {
    if a != [] {
      CommonPrefixSelf(a[1..]);
      assert a == [a[0]] + a[1..];
    }
  }
}
