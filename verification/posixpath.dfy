/** The two POSIX path operations the video assembler relies on, with the
    semantics of Python's `posixpath.join` (two arguments) and
    `posixpath.dirname` on `str` paths. */
module PosixPath {

  const Sep: char := '/'

  /** `os.path.join(a, b)`: an absolute `b` replaces `a`; otherwise `b` is
      appended, with one separator in between unless `a` is empty or
      already ends with one. */
  function Join(a: string, b: string): (r: string)
    ensures |b| <= |r| && r[|r| - |b|..] == b
    ensures (|b| == 0 || b[0] != Sep) ==> a <= r
    ensures |b| > 0 && b[0] == Sep ==> r == b
  {
    if |b| > 0 && b[0] == Sep then b
    else if |a| == 0 || a[|a| - 1] == Sep then a + b
    else a + [Sep] + b
  }

  /** Every character of `s` is a separator. */
  predicate AllSeps(s: string) {
    forall k :: 0 <= k < |s| ==> s[k] == Sep
  }

  /** `p.rfind('/') + 1`: the index just past the last separator of `p`,
      or 0 when `p` has none. */
  function LastSepEnd(p: string): (i: nat)
    ensures i <= |p|
    ensures i > 0 ==> p[i - 1] == Sep
    ensures forall k :: i <= k < |p| ==> p[k] != Sep
    decreases |p|
  {
    if |p| == 0 then 0
    else if p[|p| - 1] == Sep then |p|
    else LastSepEnd(p[..|p| - 1])
  }

  /** `s.rstrip('/')`: removes exactly the trailing separators of `s`. */
  function RStripSeps(s: string): (r: string)
    ensures r <= s
    ensures |r| == 0 || r[|r| - 1] != Sep
    ensures forall k :: |r| <= k < |s| ==> s[k] == Sep
    decreases |s|
  {
    if |s| > 0 && s[|s| - 1] == Sep then RStripSeps(s[..|s| - 1]) else s
  }

  /** `os.path.dirname(p)`: everything up to the last separator, with the
      trailing separators removed unless nothing but separators is left. */
  function Dirname(p: string): (r: string)
    ensures r <= p
  {
    var head := p[..LastSepEnd(p)];
    if |head| > 0 && !AllSeps(head) then RStripSeps(head) else head
  }

  /** The directory part of a path is empty exactly when the path holds no
      separator at all. */
  lemma DirnameEmptyIff(p: string)
    ensures Dirname(p) == [] <==> Sep !in p
  {
  }

  /** Joining a directory without a trailing separator and a plain file
      name gives back that directory as the directory part. */
  lemma DirnameOfJoin(dir: string, name: string)
    requires |dir| > 0 && dir[|dir| - 1] != Sep
    requires Sep !in name
    ensures Dirname(Join(dir, name)) == dir
  {
    var p := Join(dir, name);
    assert |name| == 0 || name[0] != Sep;
    assert p == dir + [Sep] + name;
    var i := LastSepEnd(p);
    assert p[|dir|] == Sep;
    assert i == |dir| + 1;
    var head := p[..i];
    assert head == dir + [Sep];
    assert head[|dir| - 1] != Sep;
    var r := RStripSeps(head);
    assert |r| == |dir|;
  }
}
