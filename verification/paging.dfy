/** List paging clamps of the server (apps/server/internal/paging/paging.go). */
module Paging {

  const DefaultLimit := 50
  const MaxLimit := 200

  /** Normalize: a limit outside 1..200 becomes 50 (an oversized limit is
      not capped at 200), and a negative offset becomes 0. */
  function Normalize(limit: int, offset: int): (r: (int, int))
    ensures 1 <= r.0 <= MaxLimit && r.1 >= 0
    ensures 1 <= limit <= MaxLimit ==> r.0 == limit
    ensures !(1 <= limit <= MaxLimit) ==> r.0 == DefaultLimit
    ensures offset >= 0 ==> r.1 == offset
    ensures offset < 0 ==> r.1 == 0
  {
    (if limit <= 0 || limit > MaxLimit then DefaultLimit else limit,
     if offset < 0 then 0 else offset)
  }

  /** Normalizing normalized paging changes nothing. */
  lemma NormalizeIdempotent(limit: int, offset: int)
    ensures var r := Normalize(limit, offset); Normalize(r.0, r.1) == r
  {
  }
}
