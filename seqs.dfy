/** Facts about sequence prefixes that the loops building logs and row lists rely on. */
module Seqs {

  /** A prefix one longer is the prefix with the next element appended. */
  lemma TakeSnoc<T>(s: seq<T>, i: nat)
    requires i < |s|
    ensures s[..i + 1] == s[..i] + [s[i]]
  {
  }

  /** Appending to a log that equals `base + s[..i]` gives `base + s[..i + 1]`. */
  lemma ExtendPrefix<T>(base: seq<T>, s: seq<T>, i: nat)
    requires i < |s|
    ensures base + s[..i] + [s[i]] == base + s[..i + 1]
  {
    TakeSnoc(s, i);
  }
}
