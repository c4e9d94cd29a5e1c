/** Angles in nanodegrees (1e-9 degrees), as the header bounding box stores them. */
module NanoDegrees {
  import opened Ints

  /** The bound `NanoDegree::new` enforces, on both sides and inclusive. */
  const NANO_DEGREE_BOUND: int := 1_000_000_000

  datatype NanoDegree = NanoDegree(value: i64)

  predicate InRange(nd: int) {
    -NANO_DEGREE_BOUND <= nd <= NANO_DEGREE_BOUND
  }

  /** `NanoDegree::new`: panics outside the range, so callers must stay in it. */
  function New(nd: i64): (r: NanoDegree)
    requires InRange(nd)
    ensures r.value == nd
  {
    NanoDegree(nd)
  }

  /** Both ends of the range are accepted. */
  lemma RangeInclusive()
    ensures InRange(-1_000_000_000) && InRange(1_000_000_000)
    ensures !InRange(-1_000_000_001) && !InRange(1_000_000_001)
    ensures New(-1_000_000_000).value == -1_000_000_000 && New(1_000_000_000).value == 1_000_000_000
  {
  }

  /** The range check lives only in `New`: the public field takes any `i64`,
      such as the -180 degrees of a world-wide bounding box. */
  lemma RawConstructorUnchecked()
    ensures !InRange(-180_000_000_000)
    ensures NanoDegree(-180_000_000_000).value == -180_000_000_000
  {
  }
}
