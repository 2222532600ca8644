/**
 * Keyword routing shared by the curated catalogue, the canned tutor and the
 * browser fallback: the first group any of whose keywords occurs in the
 * (lower-cased) text wins.
 */
module Keywords {
  import opened Common

  /** Some keyword of `words` occurs in `text`. */
  predicate AnyIn(words: seq<string>, text: string) {
    exists w :: w in words && ContainsSub(text, w)
  }

  /** Index of the first group that matches, or |groups| when none does. */
  function FirstMatch(groups: seq<seq<string>>, text: string): (k: nat)
    ensures k <= |groups|
    ensures k < |groups| ==> AnyIn(groups[k], text)
    ensures forall j :: 0 <= j < k ==> !AnyIn(groups[j], text)
  {
    if |groups| == 0 then 0
    else if AnyIn(groups[0], text) then 0
    else 1 + FirstMatch(groups[1..], text)
  }

  /** The word spliced into a text is found there. */
  lemma WordFound(words: seq<string>, w: string, a: string, b: string)
    requires w in words
    ensures AnyIn(words, a + w + b)
  {
    ContainsMiddle(a, w, b);
  }
}
