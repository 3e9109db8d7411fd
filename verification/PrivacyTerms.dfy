/** What a reduced query log stores in place of names and clients
    (internal/privacy/privacy.go). */
module PrivacyTerms {

  const HIDDEN := "hidden"
  const PSEUDONYM_PREFIX := "anon-"
  const DAY_MS := 86_400_000

  predicate IsPseudonym(client: string) { PSEUDONYM_PREFIX <= client }

  /** Go's integer division, which truncates. */
  function DayOf(ts: int): int { if ts >= 0 then ts / DAY_MS else -(-ts / DAY_MS) }
}
