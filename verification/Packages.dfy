/** What the helper and the backend both call a package. */
module Packages {

  /** One approved row of the material plan. */
  datatype Row = Row(name: string, architecture: string, installed: string, candidate: string)

  /** `[a-z][a-z0-9]*(-[a-z0-9]+)*`: lower-case words and digits joined by single hyphens, a letter first. */
  predicate Architecture(s: string)
  {
    && s != [] && 'a' <= s[0] <= 'z' && s[|s| - 1] != '-'
    && (forall c <- s :: 'a' <= c <= 'z' || '0' <= c <= '9' || c == '-')
    && forall i :: 0 < i < |s| && s[i] == '-' ==> s[i - 1] != '-'
  }

  type Identity = (string, string)
}
