/** Protocol versions. ServerVersion and ClientVersion are both ordered by
    release; a release is identified here by its protocol number, which
    grows with every release this model compares against. */
module Versions {

  type Version = nat

  const V_1_8: Version := 47
  const V_1_11: Version := 315
  const V_1_12: Version := 335
  const V_1_12_2: Version := 340
  const V_1_13: Version := 393
  const V_1_17: Version := 755
  const V_1_19: Version := 759
  const V_1_19_1: Version := 760

  /** isNewerThanOrEquals */
  predicate AtLeast(v: Version, w: Version)
  {
    v >= w
  }

  /** isNewerThan */
  predicate NewerThan(v: Version, w: Version)
  {
    v > w
  }
}
