/** The day keys behind client pseudonyms (internal/privacy/keyring.go): one random secret
    per UTC day, drawn on first use and dropped by the scrub.

    A key is its number in drawing order, so a key drawn again is a new one. `pseud` stands
    for the HMAC of a client under a key, `source` for the key and client behind a
    pseudonym, which nobody can compute; that it exists says that no two pseudonyms collide. */
module Keyrings {
  import opened PrivacyTerms

  type Dev = string

  datatype Mac = Mac(pseud: (nat, string) -> Dev, source: Dev -> (nat, string))

  ghost predicate CollisionFree(m: Mac) {
    forall key: nat, client :: IsPseudonym(m.pseud(key, client)) && m.source(m.pseud(key, client)) == (key, client)
  }

  /** The keys held, and how many were ever drawn. */
  datatype Ring = Ring(keys: map<int, nat>, drawn: nat)

  predicate RingFine(r: Ring) { forall day <- r.keys :: r.keys[day] < r.drawn }

  /** The day's key: the one held, or the next one drawn. */
  function KeyOf(r: Ring, day: int): nat { if day in r.keys then r.keys[day] else r.drawn }

  function Draw(r: Ring, day: int): Ring {
    if day in r.keys then r else Ring(r.keys[day := r.drawn], r.drawn + 1)
  }

  function Drop(r: Ring, before: int): Ring {
    r.(keys := map day | day in r.keys && day >= before :: r.keys[day])
  }

  class Keyring {
    const mac: Mac
    var keys: map<int, nat>
    var drawn: nat

    ghost function State(): Ring
      reads this
    {
      Ring(keys, drawn)
    }

    /** A start of the process: `kept` is what could be read back. */
    constructor (mac: Mac, kept: map<int, nat>, drawn: nat)
      ensures State() == Ring(kept, drawn) && this.mac == mac
    {
      this.mac, this.keys, this.drawn := mac, kept, drawn;
    }

    method Key(day: int) returns (key: nat)
      modifies this
      ensures key == KeyOf(old(State()), day) && State() == Draw(old(State()), day)
    {
      if day in keys { return keys[day]; }
      key := drawn;
      keys, drawn := keys[day := key], drawn + 1;
    }

    method Pseudonym(client: string, ts: int) returns (dev: Dev)
      modifies this
      ensures dev == mac.pseud(KeyOf(old(State()), DayOf(ts)), client)
      ensures State() == Draw(old(State()), DayOf(ts))
    {
      var key := Key(DayOf(ts));
      return mac.pseud(key, client);
    }

    method Prune(before: int)
      modifies this
      ensures State() == Drop(old(State()), DayOf(before))
    {
      keys := map day | day in keys && day >= DayOf(before) :: keys[day];
    }
  }

  /** A pseudonym of the day stays the same as long as its key is held, and a key drawn
      after it was dropped gives everyone another one. */
  lemma KeyIsFreshIff(m: Mac, r: Ring, before: int, day: int, client: string)
    requires CollisionFree(m) && RingFine(r) && day in r.keys
    ensures var s := Drop(r, before);
            m.pseud(KeyOf(s, day), client) != m.pseud(KeyOf(r, day), client) <==> day < before
  {
    assert m.source(m.pseud(KeyOf(r, day), client)).0 == KeyOf(r, day);
    assert m.source(m.pseud(KeyOf(Drop(r, before), day), client)).0 == KeyOf(Drop(r, before), day);
  }
}
