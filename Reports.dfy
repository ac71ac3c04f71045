/** What the models report: a value that may be missing, and counts turned into fractions. */
module Reports {
  /** A reported value, missing where the source raises on an empty population. */
  datatype Option<T> = None | Some(value: T)

  /** A count out of a positive total, as a fraction. */
  lemma Fraction(c: nat, n: nat)
    requires c <= n && n > 0
    ensures 0.0 <= c as real / n as real <= 1.0
    ensures (c as real / n as real) * n as real == c as real
    ensures c as real / n as real == 1.0 <==> c == n
  {
  }
}
