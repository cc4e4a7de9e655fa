/** bcrypt, reduced to what the core relies on: a digest determines the
    password it was made from, and `compare` accepts exactly that password.
    Salt and cost are not modelled. */
module Bcrypt {

  /** A bcrypt digest. Only its identity matters to the model, so it is
      represented by the password it was computed from. */
  datatype Digest = Digest(of: string)

  /** Length of bcrypt's encoded output (`$2b$10$`, 22 salt and 31 hash characters). */
  const EncodedLength: nat := 60

  /** `hash(p, 10)` */
  function Hash(p: string): Digest {
    Digest(p)
  }

  /** `compare(p, d)` */
  predicate Compare(p: string, d: Digest) {
    d == Hash(p)
  }

  /** A digest accepts its own password and no other. */
  lemma CompareHash(p: string, q: string)
    ensures Compare(q, Hash(p)) <==> q == p
  {
  }
}
