/** POSIX path helpers as Python's `os.path` (posixpath) defines them. */
module Paths {

  const Separator: char := '/'

  /**
   * `os.path.basename(p)`: everything after the last separator, the whole
   * path when it has none.
   */
  function Basename(p: string): (r: string)
    ensures Separator !in r
    ensures |r| <= |p| && r == p[|p| - |r|..]
    ensures r == p || p[|p| - |r| - 1] == Separator
  {
    if p == [] || p[|p| - 1] == Separator then []
    else Basename(p[..|p| - 1]) + [p[|p| - 1]]
  }

  /**
   * `os.path.join(a, b)`: an absolute `b` replaces `a`; otherwise `b` is
   * appended, after a separator unless `a` is empty or already ends in one.
   */
  function Join(a: string, b: string): (r: string)
    ensures |b| <= |r| && r[|r| - |b|..] == b
    ensures Separator !in b ==> Basename(r) == b
  {
    if |b| > 0 && b[0] == Separator then b
    else if a == [] || a[|a| - 1] == Separator then
      BasenameAfterSeparator(a, b);
      a + b
    else
      BasenameAfterSeparator(a + [Separator], b);
      a + [Separator] + b
  }

  /** A name without separators that follows a separator (or stands alone) is the basename. */
  lemma {:induction false} BasenameAfterSeparator(x: string, b: string)
    requires x == [] || x[|x| - 1] == Separator
    ensures Separator !in b ==> Basename(x + b) == b
  {
    if b != [] && Separator !in b {
      var front := b[..|b| - 1];
      assert (x + b)[..|x + b| - 1] == x + front;
      BasenameAfterSeparator(x, front);
    }
  }

  /** Joining one directory with names that are not absolute is one-to-one in the name. */
  lemma JoinInjective(a: string, b1: string, b2: string)
    requires b1 == [] || b1[0] != Separator
    requires b2 == [] || b2[0] != Separator
    requires Join(a, b1) == Join(a, b2)
    ensures b1 == b2
  {
    var prefix := if a == [] || a[|a| - 1] == Separator then a else a + [Separator];
    assert Join(a, b1) == prefix + b1 && Join(a, b2) == prefix + b2;
    assert b1 == (prefix + b1)[|prefix|..];
    assert b2 == (prefix + b2)[|prefix|..];
  }
}

/** The hexadecimal digest strings `hashlib.md5(...).hexdigest()` returns. */
module Digest {

  predicate IsHexDigit(c: char)
  {
    '0' <= c <= '9' || 'a' <= c <= 'f'
  }

  /** Thirty-two lower-case hexadecimal digits. */
  type HexDigest = s: string | |s| == 32 && forall i | 0 <= i < |s| :: IsHexDigit(s[i])
    witness "00000000000000000000000000000000"

  /** A digest never contains a path separator, so it never alters the path it is put in. */
  lemma NoSeparatorInDigest(h: HexDigest)
    ensures '/' !in h
  {
  }
}
