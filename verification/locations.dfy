/** Source positions attached to tokens and errors (src/location.rs). */
module Locations {

  /** A zero-based line and column. */
  datatype Location = Location(line: nat, column: nat)

  /** `a` comes strictly before `b` in reading order. */
  predicate Before(a: Location, b: Location)
  {
    a.line < b.line || (a.line == b.line && a.column < b.column)
  }

  /** Reading order is transitive, so consecutive ordering gives pairwise ordering. */
  lemma BeforeTransitive(a: Location, b: Location, c: Location)
    requires Before(a, b) && Before(b, c)
    ensures Before(a, c)
  {
  }
}
