/** Selecting audio files from a directory listing by their name's suffix. */
module Listing {

  /** `name.endswith(suffix)`. */
  predicate EndsWith(name: string, suffix: string)
    ensures EndsWith(name, suffix) <==> exists head :: head + suffix == name
  {
    if |suffix| <= |name| && name[|name| - |suffix|..] == suffix then
      assert name[..|name| - |suffix|] + suffix == name;
      true
    else
      assert forall head :: head + suffix == name ==> name[|head|..] == suffix;
      false
  }

  /** `name.endswith(tuple(suffixes))`. */
  predicate EndsWithAny(name: string, suffixes: seq<string>)
    ensures EndsWithAny(name, suffixes) <==> exists s, head :: s in suffixes && head + s == name
  {
    exists i :: 0 <= i < |suffixes| && EndsWith(name, suffixes[i])
  }

  /** `[f for f in listing if f.endswith(tuple(suffixes))]`. */
  function WithSuffix(listing: seq<string>, suffixes: seq<string>): (r: seq<string>)
    ensures forall f :: f in r <==> f in listing && EndsWithAny(f, suffixes)
    ensures |r| <= |listing|
  {
    if listing == [] then []
    else
      var last := listing[|listing| - 1];
      var init := listing[..|listing| - 1];
      assert forall f :: f in listing <==> f in init || f == last;
      WithSuffix(init, suffixes) + (if EndsWithAny(last, suffixes) then [last] else [])
  }

  /**
   * The selection keeps listing order: selecting from a concatenation is
   * concatenating the selections.
   */
  lemma {:induction false} WithSuffixAppend(a: seq<string>, b: seq<string>, suffixes: seq<string>)
    ensures WithSuffix(a + b, suffixes) == WithSuffix(a, suffixes) + WithSuffix(b, suffixes)
    decreases |b|
  {
    if b == [] {
      assert a + b == a;
    } else {
      assert (a + b)[|a + b| - 1] == b[|b| - 1];
      assert (a + b)[..|a + b| - 1] == a + b[..|b| - 1];
      WithSuffixAppend(a, b[..|b| - 1], suffixes);
    }
  }
}
