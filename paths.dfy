/**
 * The POSIX operations of Node's `path` module that the core calls:
 * `basename`, `dirname`, `extname`, `normalize` and `join`, following the
 * scanning rules of Node's POSIX implementation (trailing slashes are
 * ignored, `.` and `..` segments are resolved, an empty result is `.`).
 */
module Paths {
  import opened Text

  /** The largest position in `[lo, hi)` holding `c`, or -1. */
  function LastIndexIn(s: string, c: char, lo: nat, hi: nat): (r: int)
    requires lo <= hi <= |s|
    ensures r == -1 || (lo <= r < hi && s[r] == c)
    ensures r == -1 ==> forall i :: lo <= i < hi ==> s[i] != c
    ensures r >= 0 ==> forall i :: r < i < hi ==> s[i] != c
    decreases hi - lo
  {
    if hi == lo then -1
    else if s[hi - 1] == c then hi - 1
    else LastIndexIn(s, c, lo, hi - 1)
  }

  /** The length of `p` once its trailing slashes are dropped. */
  function TrimmedEnd(p: string): (e: nat)
    ensures e <= |p|
    ensures e == 0 || p[e - 1] != '/'
    ensures forall i :: e <= i < |p| ==> p[i] == '/'
  {
    if p == [] then 0
    else if p[|p| - 1] == '/' then TrimmedEnd(p[..|p| - 1])
    else |p|
  }

  /** `path.basename(p)`: the last segment, trailing slashes ignored. */
  function Basename(p: string): (r: string)
    ensures '/' !in r
    ensures |r| <= |p|
  {
    var e := TrimmedEnd(p);
    if e == 0 then ""
    else
      var k := LastIndexIn(p, '/', 0, e);
      p[k + 1..e]
  }

  /** `path.dirname(p)`: everything before the last segment. */
  function Dirname(p: string): (r: string)
    ensures r != ""
  {
    if p == "" then "."
    else
      var e := TrimmedEnd(p);
      var end := if e <= 1 then -1 else LastIndexIn(p, '/', 1, e);
      if end == -1 then (if p[0] == '/' then "/" else ".")
      else if p[0] == '/' && end == 1 then "//"
      else p[..end]
  }

  /** `path.extname(p)`: from the last `.` of the basename, unless that dot leads it. */
  function Extname(p: string): (r: string)
    ensures r == "" || (r[0] == '.' && '.' !in r[1..] && '/' !in r)
  {
    var b := Basename(p);
    var d := LastIndexIn(b, '.', 0, |b|);
    if d <= 0 || b == ".." then ""
    else
      var tail := b[d..];
      assert forall i :: 1 <= i < |tail| ==> tail[i] == b[d + i];
      assert tail[1..] == b[d + 1..];
      tail
  }

  /** For a path whose last segment follows a single slash, dirname and basename put it together again. */
  lemma DirnameBasename(p: string)
    requires |p| > 0 && p[|p| - 1] != '/'
    requires LastIndexIn(p, '/', 1, |p|) > 1
    ensures Dirname(p) + "/" + Basename(p) == p
  {
    var k := LastIndexIn(p, '/', 1, |p|);
    assert TrimmedEnd(p) == |p|;
    DirnameAt(p, k);
    LastIndexInWiden(p, '/', 0, 1, |p|);
    BasenameAt(p, k);
    Around(p, k);
  }

  lemma DirnameAt(p: string, k: int)
    requires |p| > 0 && TrimmedEnd(p) == |p|
    requires k == LastIndexIn(p, '/', 1, |p|) && k > 1
    ensures Dirname(p) == p[..k]
  {
  }

  lemma BasenameAt(p: string, k: int)
    requires |p| > 0 && TrimmedEnd(p) == |p|
    requires k == LastIndexIn(p, '/', 0, |p|) && k >= 0
    ensures Basename(p) == p[k + 1..]
  {
  }

  /** Searching a wider range finds the same last position when the narrower search found one. */
  lemma {:induction false} LastIndexInWiden(s: string, c: char, lo: nat, mid: nat, hi: nat)
    requires lo <= mid <= hi <= |s|
    requires LastIndexIn(s, c, mid, hi) >= 0
    ensures LastIndexIn(s, c, lo, hi) == LastIndexIn(s, c, mid, hi)
    decreases hi - lo
  {
    if s[hi - 1] != c {
      LastIndexInWiden(s, c, lo, mid, hi - 1);
    }
  }

  /**
   * Node's `normalizeString`: drops empty and `.` segments, lets `..` cancel
   * the segment before it, and keeps a leading `..` only when the path may
   * climb above its start (it is relative).
   */
  function ResolveSegments(segs: seq<string>, allowAboveRoot: bool, acc: seq<string>): (r: seq<string>)
    decreases |segs|
  {
    if segs == [] then acc
    else
      var s := segs[0];
      if s == "" || s == "." then ResolveSegments(segs[1..], allowAboveRoot, acc)
      else if s == ".." then
        if |acc| > 0 && acc[|acc| - 1] != ".." then ResolveSegments(segs[1..], allowAboveRoot, acc[..|acc| - 1])
        else if allowAboveRoot then ResolveSegments(segs[1..], allowAboveRoot, acc + [".."])
        else ResolveSegments(segs[1..], allowAboveRoot, acc)
      else ResolveSegments(segs[1..], allowAboveRoot, acc + [s])
  }

  /** `path.normalize(p)`. */
  function Normalize(p: string): (r: string)
    ensures r != ""
  {
    if p == "" then "."
    else
      var isAbsolute := p[0] == '/';
      var trailingSeparator := p[|p| - 1] == '/';
      var body := JoinWith(ResolveSegments(Split(p, '/'), !isAbsolute, []), '/');
      if body == "" then (if isAbsolute then "/" else if trailingSeparator then "./" else ".")
      else
        var withTrailing := if trailingSeparator then body + "/" else body;
        if isAbsolute then "/" + withTrailing else withTrailing
  }

  /** The non-empty arguments joined with '/', as `path.join` does before normalising. */
  function JoinNonEmpty(args: seq<string>): string {
    if args == [] then ""
    else
      var rest := JoinNonEmpty(args[1..]);
      if args[0] == "" then rest
      else if rest == "" then args[0]
      else args[0] + "/" + rest
  }

  /** `path.join(...args)` over string arguments. */
  function Join(args: seq<string>): (r: string)
    ensures r != ""
  {
    var joined := JoinNonEmpty(args);
    if joined == "" then "." else Normalize(joined)
  }
}
