/**
 * Python's `os.path.splitext` on POSIX paths: the extension is the text from
 * the last '.' that lies after the last '/', unless every character between
 * that '/' (or the start) and the '.' is itself a '.', in which case there is
 * no extension ("a.b.mp3" -> ("a.b", ".mp3"), ".mp3" -> (".mp3", "")).
 */
module PathExt {

  /** `s.rfind(c)`: the index of the last `c` in `s`, or -1. */
  function RFind(s: string, c: char): (r: int)
    ensures -1 <= r < |s|
    ensures r >= 0 ==> s[r] == c
    ensures forall k :: r < k < |s| ==> s[k] != c
  {
    if s == [] then -1
    else if s[|s| - 1] == c then |s| - 1
    else RFind(s[..|s| - 1], c)
  }

  /** Some character strictly between `lo` and `hi` is not a '.'. */
  predicate HasNonDotBetween(p: string, lo: int, hi: int)
    requires -1 <= lo && hi <= |p|
  {
    exists k :: lo < k < hi && p[k] != '.'
  }

  /** `os.path.splitext(p)` as the pair (root, ext). */
  function SplitExt(p: string): (r: (string, string))
    ensures r.0 + r.1 == p
    ensures r.1 == [] || (r.1[0] == '.' && forall k :: 0 < k < |r.1| ==> r.1[k] != '.' && r.1[k] != '/')
    ensures p != [] ==> r.0 != []
  {
    var sepIndex := RFind(p, '/');
    var dotIndex := RFind(p, '.');
    if dotIndex > sepIndex && HasNonDotBetween(p, sepIndex, dotIndex) then
      assert p[..dotIndex] + p[dotIndex..] == p;
      (p[..dotIndex], p[dotIndex..])
    else
      (p, [])
  }

  /** `os.path.splitext(p)[0]`: the name without its extension. */
  function Stem(p: string): (r: string)
    ensures |r| <= |p| && r == p[..|r|]
    ensures p != [] ==> r != []
  {
    SplitExt(p).0
  }

  /**
   * Appending an extension (a '.' followed by neither '.' nor '/') to a name
   * with no '/' and at least one character other than '.' is undone by `Stem`.
   */
  lemma StemDropsExtension(name: string, ext: string)
    requires '/' !in name && exists k :: 0 <= k < |name| && name[k] != '.'
    requires |ext| > 0 && ext[0] == '.' && forall k :: 0 < k < |ext| ==> ext[k] != '.' && ext[k] != '/'
    ensures SplitExt(name + ext) == (name, ext)
  {
    var p := name + ext;
    var sepIndex := RFind(p, '/');
    var dotIndex := RFind(p, '.');
    assert p[|name|] == '.';
    assert dotIndex == |name| by {
      forall k | |name| < k < |p| ensures p[k] != '.' { assert p[k] == ext[k - |name|]; }
    }
    assert sepIndex < 0;
    var k :| 0 <= k < |name| && name[k] != '.';
    assert p[k] != '.';
    assert HasNonDotBetween(p, sepIndex, dotIndex);
    assert p[..dotIndex] == name;
    assert p[dotIndex..] == ext;
  }

  /**
   * A name made only of dots before its last '.' (a "dot file" such as
   * ".mp3" or "..mp3") keeps its whole text as the stem.
   */
  lemma LeadingDotsKeepName(p: string, dot: nat)
    requires '/' !in p
    requires dot < |p| && p[dot] == '.' && forall k :: dot < k < |p| ==> p[k] != '.'
    requires forall k :: 0 <= k < dot ==> p[k] == '.'
    ensures SplitExt(p) == (p, [])
  {
    var sepIndex := RFind(p, '/');
    assert sepIndex == -1;
    assert RFind(p, '.') == dot;
    assert !HasNonDotBetween(p, sepIndex, dot);
  }

  lemma SplitExtExamples()
    ensures SplitExt("a.b.mp3") == ("a.b", ".mp3")
    ensures SplitExt(".mp3") == (".mp3", "")
  {
    assert "a.b"[0] != '.';
    assert "a.b" + ".mp3" == "a.b.mp3";
    StemDropsExtension("a.b", ".mp3");
    LeadingDotsKeepName(".mp3", 0);
  }
}
