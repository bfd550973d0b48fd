/** Facts about sequences that several modules use. */
module Seqs {
  /** The prefix one longer is the prefix and the next element. */
  lemma PrefixExtend<T>(s: seq<T>, k: nat)
    requires k < |s|
    ensures s[..k + 1] == s[..k] + [s[k]]
  {
  }
}
