/** The `user` table, keyed by email, and the bcrypt hasher that fills its password column. */
module UserStore {
  import opened Wrappers

  /** One user row: display name, bcrypt hash of the password, verification flag. */
  datatype Row = Row(name: string, hash: string, verified: bool)

  /** The table; email is its key, compared exactly as stored. */
  type Store = map<string, Row>

  /**
   * bcrypt for one request: `generate` is `GenerateFromPassword` with this request's salt
   * (None when it fails) and `compare(hash, password)` is `CompareHashAndPassword` succeeding.
   */
  datatype Hasher = Hasher(generate: string -> Option<string>, compare: (string, string) -> bool)

  /** The one property of bcrypt the model uses: a password matches its own hash. */
  ghost predicate Sound(h: Hasher) {
    forall p :: h.generate(p).Some? ==> h.compare(h.generate(p).value, p)
  }

  /** `store'` is `store` with exactly the row of `email` flipped to verified. */
  ghost predicate MarkedVerified(store: Store, store': Store, email: string) {
    && email in store
    && store'.Keys == store.Keys
    && store'[email] == store[email].(verified := true)
    && forall e :: e in store && e != email ==> store'[e] == store[e]
  }

  /**
   * The lifecycle of rows: none is ever removed, name and hash never change once
   * inserted, and a verified row stays verified.
   */
  ghost predicate Evolves(store: Store, store': Store) {
    && store.Keys <= store'.Keys
    && forall e :: e in store ==>
         && store'[e].name == store[e].name
         && store'[e].hash == store[e].hash
         && (store[e].verified ==> store'[e].verified)
  }

  lemma EvolvesTransitive(s0: Store, s1: Store, s2: Store)
    requires Evolves(s0, s1) && Evolves(s1, s2)
    ensures Evolves(s0, s2)
  {
  }

  /** The emails whose row is verified. */
  function VerifiedUsers(store: Store): set<string> {
    set e | e in store && store[e].verified
  }
}
