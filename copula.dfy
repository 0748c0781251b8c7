/** Definitions shared by the copula families. */
module CopulaShared {

  /** The dimensions every family's constructor accepts (at least 2);
      nothing changes the dimension afterwards. */
  type Dimension = d: nat | 2 <= d witness 2
}
