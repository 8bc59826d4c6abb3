/**
 * `parse_filename`: match `(?P<artist>.+?) - (?P<title>.+)` at the start of
 * the file's stem. The lazy artist group settles on the shortest prefix
 * (at least one character) that is followed by " - " and then by at least
 * one more character; the greedy title group takes everything after the
 * separator up to the end of the line. As in Python's `re` without DOTALL,
 * `.` matches any character except a newline. Without a match the result is
 * the whole stem with "Unknown Artist".
 */
module FilenameParser {
  import opened Wrappers
  import opened Tags
  import PathExt

  const Separator: string := " - "

  /** What `.` matches. */
  predicate MatchesDot(c: char) {
    c != '\n'
  }

  /** " - " occurs in `s` at index `i`. */
  predicate SeparatorAt(s: string, i: int) {
    0 <= i && i + 3 <= |s| && s[i..i + 3] == Separator
  }

  /** The pattern matches at the start of `s` with an artist group of length `i`. */
  predicate SplitsAt(s: string, i: int)
    ensures SplitsAt(s, i) ==> 1 <= i && i + 3 < |s| && s == s[..i] + Separator + s[i + 3..] && s[..i] != [] && s[i + 3..] != []
  {
    1 <= i && i + 3 < |s| &&
    (forall k :: 0 <= k < i ==> MatchesDot(s[k])) &&
    SeparatorAt(s, i) && MatchesDot(s[i + 3])
  }

  /**
   * The lazy artist group trying the lengths `from`, `from + 1`, ... in turn:
   * the first length at which the rest of the pattern matches.
   */
  function FirstSplit(s: string, from: nat): (r: Option<nat>)
    requires 1 <= from
    requires forall k :: 0 <= k < |s| && k < from - 1 ==> MatchesDot(s[k])
    ensures r.Some? ==> from <= r.value && SplitsAt(s, r.value)
    ensures r.Some? ==> forall j :: from <= j < r.value ==> !SplitsAt(s, j)
    ensures r.None? ==> forall j :: from <= j ==> !SplitsAt(s, j)
    decreases |s| - from
  {
    if from + 3 >= |s| then None
    else if !MatchesDot(s[from - 1]) then
      assert forall j :: from <= j ==> !SplitsAt(s, j) by {
        forall j | from <= j ensures !SplitsAt(s, j) {
          assert !MatchesDot(s[from - 1]);
        }
      }
      None
    else if SeparatorAt(s, from) && MatchesDot(s[from + 3]) then Some(from)
    else FirstSplit(s, from + 1)
  }

  /** Where a greedy `.+` starting at `i` stops: the first newline at or after `i`, or the end. */
  function LineEnd(s: string, i: nat): (e: nat)
    requires i <= |s|
    ensures i <= e <= |s|
    ensures forall k :: i <= k < e ==> MatchesDot(s[k])
    ensures e < |s| ==> !MatchesDot(s[e])
    decreases |s| - i
  {
    if i == |s| || !MatchesDot(s[i]) then i else LineEnd(s, i + 1)
  }

  /** The pattern applied to a stem: (title, artist). */
  function ParseStem(stem: string): (r: Record)
    ensures r.artist != []
    ensures stem != [] ==> r.title != []
  {
    match FirstSplit(stem, 1)
    case Some(i) => Record(stem[i + 3..LineEnd(stem, i + 3)], stem[..i])
    case None => Record(stem, UnknownArtist)
  }

  /** `parse_filename(filename)`; total: every string yields a record. */
  function ParseFilename(filename: string): (r: Record)
    ensures r.artist != []
    ensures filename != [] ==> r.title != []
  {
    ParseStem(PathExt.Stem(filename))
  }

  /**
   * The fallback (whole stem, "Unknown Artist") is the result exactly when no
   * artist length lets the pattern match.
   */
  lemma FallbackIffNoSplit(stem: string)
    ensures ParseStem(stem) == Record(stem, UnknownArtist) <==> forall i :: !SplitsAt(stem, i)
  {
  }

  /**
   * "A - B": when the pattern cannot match with an artist shorter than A
   * (no " - " at an index in [1, |A|) of A + " -"), and neither A nor B holds a
   * newline, the left segment is the artist and the right segment the title,
   * whatever further separators B contains.
   */
  lemma {:induction false} SplitAtFirstSeparator(a: string, b: string)
    requires a != [] && b != []
    requires forall k :: 0 <= k < |a| ==> MatchesDot(a[k])
    requires forall k :: 0 <= k < |b| ==> MatchesDot(b[k])
    requires forall i :: 1 <= i < |a| ==> !SeparatorAt(a + Separator, i)
    ensures ParseStem(a + Separator + b) == Record(b, a)
  {
    var s := a + Separator + b;
    forall j | 1 <= j < |a| ensures !SplitsAt(s, j) {
      assert s[j..j + 3] == (a + Separator)[j..j + 3];
      assert !SeparatorAt(a + Separator, j);
    }
    assert s[..|a|] == a;
    assert s[|a|..|a| + 3] == Separator;
    assert s[|a| + 3] == b[0];
    assert SplitsAt(s, |a|);
    var r := FirstSplit(s, 1);
    assert r == Some(|a|);
    var e := LineEnd(s, |a| + 3);
    assert e == |s|;
    assert s[|a| + 3..] == b;
  }

  /** The same for a file name: "A - B" plus an extension parses to title B, artist A. */
  lemma ParseArtistDashTitle(a: string, b: string, ext: string)
    requires a != [] && b != []
    requires forall k :: 0 <= k < |a| ==> MatchesDot(a[k]) && a[k] != '/'
    requires forall k :: 0 <= k < |b| ==> MatchesDot(b[k]) && b[k] != '/'
    requires forall i :: 1 <= i < |a| ==> !SeparatorAt(a + Separator, i)
    requires |ext| > 0 && ext[0] == '.' && forall k :: 0 < k < |ext| ==> ext[k] != '.' && ext[k] != '/'
    ensures ParseFilename(a + Separator + b + ext) == Record(b, a)
  {
    var name := a + Separator + b;
    assert name[|a|] == ' ';
    PathExt.StemDropsExtension(name, ext);
    SplitAtFirstSeparator(a, b);
  }

  /**
   * Whatever the search order, the artist is the shortest prefix at which the
   * pattern matches, and the title runs from after its separator to the end
   * of the line; separators further on stay inside the title.
   */
  lemma FirstSeparatorWins(stem: string, i: nat)
    requires SplitsAt(stem, i)
    requires forall j :: 1 <= j < i ==> !SplitsAt(stem, j)
    ensures ParseStem(stem) == Record(stem[i + 3..LineEnd(stem, i + 3)], stem[..i])
  {
  }

  /**
   * The stems `" - B"` (its only separator at index 0) and `"A - "` (nothing
   * after its only separator) give the fallback; `FallbackIffNoSplit` states
   * the general rule.
   */
  lemma NoQualifyingSeparator()
    ensures ParseStem(" - B") == Record(" - B", UnknownArtist)
    ensures ParseStem("A - ") == Record("A - ", UnknownArtist)
  {
  }
}
