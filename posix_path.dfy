/**
 * Models of the `os.path` functions (POSIX flavour) that the analyzer driver
 * calls: `commonprefix` on two strings, `dirname` and `join`.
 */
module PosixPath {

  predicate IsPrefix(p: string, s: string) {
    |p| <= |s| && p == s[..|p|]
  }

  lemma PrefixTransitive(a: string, b: string, c: string)
    requires IsPrefix(a, b) && IsPrefix(b, c)
    ensures IsPrefix(a, c)
  {
    assert c[..|b|][..|a|] == c[..|a|];
  }

  /** `os.path.commonprefix([a, b])`: the longest common prefix, character by character. */
  function CommonPrefix(a: string, b: string): (r: string)
    ensures IsPrefix(r, a) && IsPrefix(r, b)
    ensures |r| == |a| || |r| == |b| || a[|r|] != b[|r|]
  {
    if a == [] || b == [] || a[0] != b[0] then []
    else [a[0]] + CommonPrefix(a[1..], b[1..])
  }

  /** Every common prefix of `a` and `b` is a prefix of `commonprefix([a, b])`. */
  lemma CommonPrefixMaximal(a: string, b: string, q: string)
    requires IsPrefix(q, a) && IsPrefix(q, b)
    ensures IsPrefix(q, CommonPrefix(a, b))
  {
    var r := CommonPrefix(a, b);
    assert |q| <= |r| by {
      if |q| > |r| { assert false; }
    }
    assert a[..|r|][..|q|] == a[..|q|];
  }

  /** `p.rfind('/') + 1`: the index just past the last separator, 0 when there is none. */
  function AfterLastSep(p: string): (i: nat)
    ensures i <= |p|
    ensures i > 0 ==> p[i - 1] == '/'
    ensures forall j :: i <= j < |p| ==> p[j] != '/'
  {
    if p == [] then 0
    else if p[|p| - 1] == '/' then |p|
    else AfterLastSep(p[..|p| - 1])
  }

  predicate AllSeps(s: string) {
    forall j :: 0 <= j < |s| ==> s[j] == '/'
  }

  /** `s.rstrip('/')`. */
  function RStripSeps(s: string): (r: string)
    ensures IsPrefix(r, s)
    ensures r == [] || r[|r| - 1] != '/'
    ensures forall j :: |r| <= j < |s| ==> s[j] == '/'
  {
    if s != [] && s[|s| - 1] == '/' then RStripSeps(s[..|s| - 1]) else s
  }

  /**
   * `os.path.dirname(p)`: everything up to the last separator, with the
   * trailing separators removed unless the head consists of separators only.
   */
  function Dirname(p: string): string
  {
    var head := p[..AfterLastSep(p)];
    if head != [] && !AllSeps(head) then RStripSeps(head) else head
  }

  /**
   * The directory name is a prefix of the path, and it ends where a path
   * component ends: it is empty, ends with a separator, or is followed by one.
   */
  lemma DirnameAtBoundary(p: string)
    ensures IsPrefix(Dirname(p), p)
    ensures var h := Dirname(p); h == [] || h[|h| - 1] == '/' || (|h| < |p| && p[|h|] == '/')
  {
    var i := AfterLastSep(p);
    var head := p[..i];
    if head != [] && !AllSeps(head) {
      var h := RStripSeps(head);
      PrefixTransitive(h, head, p);
      if h != [] {
        assert h[|h| - 1] != '/';
        assert head[|head| - 1] == '/';
        assert |h| < |head|;
        assert p[|h|] == head[|h|] == '/';
      }
    }
  }

  /** `os.path.join(a, b)` for two components. */
  function Join(a: string, b: string): (r: string)
    ensures b != [] && b[0] != '/' ==> IsPrefix(a, r) && |r| > |a|
  {
    if b != [] && b[0] == '/' then b
    else if a == [] || a[|a| - 1] == '/' then a + b
    else a + "/" + b
  }
}
