/** Paths as plain text, built the way the generator's format strings build
    them ('{0}/{1}'), and the parent of a path as the text before its last
    '/'. No normalisation of "//", "." or ".." takes place. */
module Paths {
  import opened Schema

  /** `'{0}/{1}'.format(dir, name)`. */
  function Join(dir: string, name: string): string
  {
    dir + "/" + name
  }

  /** The directory a path lives in: everything before the last '/'.
      None for a path without '/', which names an entry of the working
      directory. */
  function ParentOf(p: string): (r: Option<string>)
    ensures r.Some? ==> |r.value| < |p| && p[|r.value|] == '/' && r.value == p[..|r.value|]
    ensures r.Some? ==> '/' !in p[|r.value| + 1..]
    ensures r.None? <==> '/' !in p
  {
    if p == [] then None
    else if p[|p| - 1] == '/' then Some(p[..|p| - 1])
    else
      var r := ParentOf(p[..|p| - 1]);
      assert forall k :: 0 <= k < |p| - 1 ==> p[..|p| - 1][k] == p[k];
      r
  }

  /** A path segment: text without a '/'. */
  predicate IsSegment(s: string)
  {
    '/' !in s
  }

  /** Joining a segment onto a directory yields a path whose parent is that
      directory, whatever the directory's text. */
  lemma {:induction false} JoinParent(dir: string, name: string)
    requires IsSegment(name)
    ensures ParentOf(Join(dir, name)) == Some(dir)
    decreases |name|
  {
    var p := Join(dir, name);
    if name == [] {
      assert p[..|p| - 1] == dir;
    } else {
      var shorter := name[..|name| - 1];
      assert p[..|p| - 1] == Join(dir, shorter);
      assert IsSegment(shorter) by {
        assert forall k :: 0 <= k < |shorter| ==> shorter[k] == name[k];
      }
      JoinParent(dir, shorter);
    }
  }

  /** A segment followed by a suffix without '/' is still a segment. */
  lemma SegmentConcat(a: string, b: string)
    requires IsSegment(a) && IsSegment(b)
    ensures IsSegment(a + b)
  {
    assert forall k :: 0 <= k < |a + b| ==> (a + b)[k] == if k < |a| then a[k] else b[k - |a|];
  }

  /** A name made of letters, digits, dots and underscores is a segment. */
  lemma LiteralSegment(s: string)
    requires forall i :: 0 <= i < |s| ==> s[i] == '.' || s[i] == '_' || 'a' <= s[i] <= 'z' || '0' <= s[i] <= '9'
    ensures IsSegment(s)
  {
  }
}
