/**
 * The rolling passphrase chain. A key exchange seeds the chain with the
 * public key; every mutation replaces the passphrase by the digest of the
 * passphrase with the secret digest appended. The hash is a parameter: it is
 * the embedding system's provider and nothing is known about it.
 */
module PassphraseChain {

  /** One mutation step. */
  function Advance(hash: string -> string, passphrase: string, pass: string): string
  {
    hash(passphrase + pass)
  }

  /** The passphrase k steps after the chain was seeded with publicKey. */
  function Chain(hash: string -> string, publicKey: string, pass: string, k: nat): string
  {
    if k == 0 then publicKey else Advance(hash, Chain(hash, publicKey, pass, k - 1), pass)
  }

  /**
   * Reference definition of the same chain, built from the other end: take
   * one step from start, then k - 1 more from there.
   */
  function Iterate(hash: string -> string, start: string, pass: string, k: nat): string
    decreases k
  {
    if k == 0 then start else Iterate(hash, Advance(hash, start, pass), pass, k - 1)
  }

  lemma {:induction false} IterateLast(hash: string -> string, start: string, pass: string, k: nat)
    ensures Iterate(hash, start, pass, k + 1) == Advance(hash, Iterate(hash, start, pass, k), pass)
    decreases k
  {
    if k > 0 {
      IterateLast(hash, Advance(hash, start, pass), pass, k - 1);
    }
  }

  /** Both definitions of the chain agree at every step. */
  lemma {:induction false} ChainIsIterate(hash: string -> string, publicKey: string, pass: string, k: nat)
    ensures Chain(hash, publicKey, pass, k) == Iterate(hash, publicKey, pass, k)
  {
    if k > 0 {
      ChainIsIterate(hash, publicKey, pass, k - 1);
      IterateLast(hash, publicKey, pass, k - 1);
    }
  }

  /**
   * After a key exchange (whose reset performs the first step) and k further
   * mutations the passphrase is the hash applied k + 1 times, starting from
   * the digest of publicKey + pass.
   */
  lemma ChainAfterReset(hash: string -> string, publicKey: string, pass: string, k: nat)
    ensures Chain(hash, publicKey, pass, k + 1) == Iterate(hash, Advance(hash, publicKey, pass), pass, k)
  {
    ChainIsIterate(hash, publicKey, pass, k + 1);
  }

  /** Steps compose: i steps followed by j more are i + j steps. */
  lemma {:induction false} ChainCompose(hash: string -> string, publicKey: string, pass: string, i: nat, j: nat)
    ensures Iterate(hash, Chain(hash, publicKey, pass, i), pass, j) == Chain(hash, publicKey, pass, i + j)
  {
    if j > 0 {
      ChainCompose(hash, publicKey, pass, i, j - 1);
      IterateLast(hash, Chain(hash, publicKey, pass, i), pass, j - 1);
    }
  }

  /**
   * The hypothesis about the hash under which a single one-sided mutation is
   * detected: no passphrase is its own successor for this secret digest.
   */
  ghost predicate NoFixedPoint(hash: string -> string, pass: string)
  {
    forall x :: Advance(hash, x, pass) != x
  }

  lemma StepMovesChain(hash: string -> string, publicKey: string, pass: string, k: nat)
    requires NoFixedPoint(hash, pass)
    ensures Chain(hash, publicKey, pass, k + 1) != Chain(hash, publicKey, pass, k)
  {
  }
}
