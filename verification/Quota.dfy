/** Limits that several components share. */
module Quota {
  /** A limit that admits any number. */
  const UNLIMITED: int := -1

  /** Open sessions of one project, for every tenant. */
  const SESSIONS_HARD_CAP: int := 10_000
}
