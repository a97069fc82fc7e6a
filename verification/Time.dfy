/** Times are integer microseconds. */
module Time {
  const SECOND: int := 1_000_000
}
