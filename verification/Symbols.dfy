/** Ideal hashing: a digest is the term that was hashed, so equal digests come
    from equal inputs. Module Derivation proves that the byte encoding in front
    of the real hash loses nothing. */
module Symbols {
  import opened Bytes

  datatype Term =
    | Raw(bytes: seq<Byte>)
    | Derived(domain: string, parts: seq<Term>)
    | Keccak(preimage: Term)
}
