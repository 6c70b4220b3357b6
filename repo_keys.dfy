/**
 * Key derivation of the analyze route: the short `owner/repo` reference a
 * caller passes as `?github=` becomes the canonical repository URL, which is
 * both the key of the `gitdata` table (its `gitlink` column) and the
 * argument handed to the analyser.
 */
module RepoKeys {

  /** The origin put in front of every short reference. */
  const Origin: string := "https://github.com/"

  /** The canonical key of a short reference: the origin followed by the
      reference exactly as given (no trimming, no case folding). */
  function CanonicalKey(raw: string): (key: string)
    ensures |key| == |Origin| + |raw|
    ensures key[..|Origin|] == Origin
    ensures key[|Origin|..] == raw
  {
    Origin + raw
  }

  /** Whether a string has the shape of a key built from a non-empty
      reference. */
  predicate IsCanonical(key: string)
  {
    |key| > |Origin| && key[..|Origin|] == Origin
  }

  /** The short reference a canonical key was built from. */
  function RawReference(key: string): (raw: string)
    requires IsCanonical(key)
    ensures raw != ""
    ensures CanonicalKey(raw) == key
  {
    key[|Origin|..]
  }

  /** Distinct references give distinct keys, and equal references equal
      keys: the key identifies the reference. */
  lemma CanonicalKeyInjective(a: string, b: string)
    ensures CanonicalKey(a) == CanonicalKey(b) <==> a == b
  {
  }

  /** Every non-empty reference gives a canonical key, and reading the
      reference back out of it returns the reference unchanged. */
  lemma RawReferenceOfKey(raw: string)
    requires raw != ""
    ensures IsCanonical(CanonicalKey(raw))
    ensures RawReference(CanonicalKey(raw)) == raw
  {
  }
}
