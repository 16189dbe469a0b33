/** Substring search on strings, used to state what a mail body contains. */
module Strings {

  /** `t` occurs in `s` starting at position `k`. */
  predicate OccursAt(s: string, t: string, k: nat) {
    k + |t| <= |s| && s[k..k + |t|] == t
  }

  ghost predicate Contains(s: string, t: string) {
    exists k :: OccursAt(s, t, k)
  }
}
