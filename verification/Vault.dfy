/** The durable memory of learned secrets. */
module Vault {
  import opened Common
  import opened Symbols
  import opened Disk

  type Secrets = map<Term, Term>

  /** Every entry opens its own key. */
  predicate Opens(known: Secrets) {
    forall h :: h in known ==> h == Keccak(known[h])
  }

  /** A secret is held durably when no crash can leave a vault without it. */
  ghost predicate Durable(file: File<Secrets>, hash: Term) {
    forall s :: s in file.survivors ==> hash in s
  }

  /** What is read back is safe on disk, all of it. */
  ghost predicate AllDurable(file: File<Secrets>) {
    forall h :: h in file.visible ==> Durable(file, h)
  }

  /** Whatever a crash may leave can be opened. */
  ghost predicate AllOpen(file: File<Secrets>) {
    forall s :: s in file.survivors ==> Opens(s)
  }

  class PreimageVault {
    var known: Secrets
    ghost var file: File<Secrets>

    ghost predicate Valid()
      reads this
    {
      && Sound(file)
      && Opens(known) && known in file.survivors
      && AllOpen(file)
      && (forall h :: h in known ==> Durable(file, h))
    }

    constructor Open(ghost file: File<Secrets>, stored: Secrets)
      requires Sound(file) && file.visible == stored && Opens(stored)
      ensures known == stored && this.file == file
      ensures Valid() <==> AllOpen(file) && AllDurable(file)
    {
      this.known, this.file := stored, file;
    }

    /** Returns true only once the secret is on disk; until then memory is unchanged. */
    method Learn(preimage: Term, fault: Fault) returns (ok: bool)
      requires Valid()
      modifies this
      ensures Valid()
      ensures ok <==> fault == NoFault || (Keccak(preimage) in old(known) && old(known)[Keccak(preimage)] == preimage)
      ensures ok ==> known == old(known)[Keccak(preimage) := preimage] && Durable(file, Keccak(preimage))
      ensures !ok ==> known == old(known)
      ensures forall h :: old(Durable(file, h)) ==> Durable(file, h)
    {
      var hash := Keccak(preimage);
      if hash in known && known[hash] == preimage {
        assert known[hash := preimage] == known;
        return true;
      }
      var next := known[hash := preimage];
      ghost var written := Replace(file, next, fault);
      file := written.0;
      if fault != NoFault {
        return false;
      }
      known := next;
      return true;
    }
  }

  /** Opens what a restart reads. Every entry is checked on the way in, and one that does
      not open its own key stops the node. Whether the entries are safe on disk is not
      checked: the vault is valid exactly when no power loss can take one away. */
  method OpenPreimageVault(ghost file: File<Secrets>, stored: Secrets) returns (v: PreimageVault?)
    requires Sound(file) && file.visible == stored
    ensures v == null <==> !Opens(stored)
    ensures v != null ==> fresh(v) && v.known == stored && v.file == file
    ensures v != null ==> (v.Valid() <==> AllOpen(file) && AllDurable(file))
    ensures Flushed(file) && v != null ==> v.Valid()
  {
    var left := stored.Keys;
    while left != {}
      invariant left <= stored.Keys
      invariant forall h :: h in stored && h !in left ==> h == Keccak(stored[h])
      decreases |left|
    {
      var h :| h in left;
      if h != Keccak(stored[h]) {
        return null;
      }
      left := left - {h};
    }
    v := new PreimageVault.Open(file, stored);
  }
}
