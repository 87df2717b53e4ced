/**
 * The authentication session: identity binding, public-key exchange, the
 * rolling passphrase, validity and timeout tracking, and the equality that
 * serves as the mutual-authentication check.
 */
module Auth {
  import opened PassphraseChain
  import opened StringOrder

  /**
   * The capabilities the embedding system supplies: a hash and the idle
   * timeout window. The clock and the salt generator are not stored; their
   * readings are passed to the operations that consult them.
   */
  datatype Provider = Provider(hash: string -> string, expireTime: nat)

  /** The character between user name and context in a session id. */
  const Separator: char := ';'

  /** The id a session bound to name in context gets: name, the separator, context. */
  function MakeId(name: string, context: string): (id: string)
    ensures |id| == |name| + 1 + |context|
    ensures id[..|name|] == name && id[|name|] == Separator && id[|name| + 1..] == context
  {
    name + [Separator] + context
  }

  /** The same user in two different contexts gets two different ids. */
  lemma MakeIdSeparatesContexts(name: string, context1: string, context2: string)
    requires context1 != context2
    ensures MakeId(name, context1) != MakeId(name, context2)
  {
  }

  class Session {
    const provider: Provider

    var valid: bool
    var timestamp: nat
    var user: string
    var pass: string
    var id: string
    var publicKey: string
    var passphrase: string

    /** Mutations since the last reset, counting the reset's own; every key exchange resets. */
    ghost var step: nat

    /** The passphrase is the chain seeded with the public key, step steps on. */
    ghost predicate OnChain()
      reads this
    {
      passphrase == Chain(provider.hash, publicKey, pass, step)
    }

    /** The object invariant: observers never see the raw key as the passphrase. */
    ghost predicate Consistent()
      reads this
    {
      step >= 1 && OnChain()
    }

    /** The default session: empty identity and secret (not hashed), empty public key. */
    constructor Default(provider: Provider, now: nat)
      ensures Consistent() && this.provider == provider
      ensures user == "" && id == "" && pass == ""
      ensures publicKey == "" && passphrase == provider.hash("")
      ensures valid && step == 1 && timestamp == now
    {
      this.provider := provider;
      valid, timestamp := false, 0;
      user, pass, id, publicKey, passphrase := "", "", "", "", "";
      step := 0;
      new;
      SetPublicKey("", now);
      assert passphrase == provider.hash("" + "");
    }

    /** A session set up at once; salt is what the provider's salt() yields. */
    constructor (provider: Provider, name: string, secret: string, context: string, key: string, salt: string, now: nat)
      ensures Consistent() && this.provider == provider
      ensures user == name && id == MakeId(name, context) && pass == provider.hash(secret)
      ensures publicKey == (if key == "" then salt else key)
      ensures passphrase == Advance(provider.hash, publicKey, pass)
      ensures valid && step == 1 && timestamp == now
    {
      this.provider := provider;
      valid, timestamp := false, 0;
      user, pass, id, publicKey, passphrase := "", "", "", "", "";
      step := 0;
      new;
      Setup(name, secret, context, key, salt, now);
    }

    /**
     * Binds the identity, stores the digest of the secret and performs a key
     * exchange with key, or with salt when key is empty.
     */
    method Setup(name: string, secret: string, context: string, key: string, salt: string, now: nat)
      modifies this
      ensures Consistent()
      ensures user == name && id == MakeId(name, context) && pass == provider.hash(secret)
      ensures publicKey == (if key == "" then salt else key)
      ensures passphrase == Advance(provider.hash, publicKey, pass)
      ensures valid && step == 1 && timestamp == now
    {
      user := name;
      id := MakeId(user, context);
      pass := provider.hash(secret);
      SetPublicKey(if key == "" then salt else key, now);
    }

    /** Marks liveness; only the timestamp changes. */
    method Touch(now: nat)
      modifies this
      ensures Consistent() == old(Consistent())
      ensures timestamp == now
      ensures valid == old(valid) && passphrase == old(passphrase) && publicKey == old(publicKey)
      ensures user == old(user) && id == old(id) && pass == old(pass) && step == old(step)
    {
      timestamp := now;
    }

    /** True exactly when now lies strictly beyond the expiry window. */
    predicate IsTimedOut(now: nat)
      reads this
      ensures IsTimedOut(now) <==> now - timestamp > provider.expireTime
    {
      now > timestamp + provider.expireTime
    }

    function IsValid(): (r: bool)
      reads this
      ensures r == valid
    {
      valid
    }

    /** Revokes the session; only the validity flag changes. */
    method Invalidate()
      modifies this
      ensures Consistent() == old(Consistent())
      ensures !valid
      ensures timestamp == old(timestamp) && passphrase == old(passphrase) && publicKey == old(publicKey)
      ensures user == old(user) && id == old(id) && pass == old(pass) && step == old(step)
    {
      valid := false;
    }

    /** Re-synchronises: valid again, chain restarted from the public key and advanced once. */
    method Reset(now: nat)
      modifies this
      ensures Consistent()
      ensures valid && step == 1 && timestamp == now
      ensures passphrase == Advance(provider.hash, publicKey, pass)
      ensures publicKey == old(publicKey) && user == old(user) && id == old(id) && pass == old(pass)
    {
      valid := true;
      passphrase := publicKey;
      step := 0;
      Mutate(now);
    }

    /** Advances the chain one step and touches the session. */
    method Mutate(now: nat)
      requires OnChain()
      modifies this
      ensures Consistent() && step == old(step) + 1
      ensures passphrase == Advance(provider.hash, old(passphrase), pass)
      ensures timestamp == now
      ensures valid == old(valid) && publicKey == old(publicKey)
      ensures user == old(user) && id == old(id) && pass == old(pass)
    {
      Touch(now);
      passphrase := provider.hash(passphrase + pass);
      step := step + 1;
    }

    function GetUserId(): (r: string)
      reads this
      ensures r == id
    {
      id
    }

    function GetUserName(): (r: string)
      reads this
      ensures r == user
    {
      user
    }

    /** The current passphrase: the chain value at the current step. */
    function GetPassphrase(): (r: string)
      reads this
      ensures r == passphrase
      ensures Consistent() ==> r == Chain(provider.hash, publicKey, pass, step)
    {
      passphrase
    }

    /** Mutate, then read the new passphrase. */
    method NextPassphrase(now: nat) returns (r: string)
      requires Consistent()
      modifies this
      ensures Consistent() && step == old(step) + 1
      ensures passphrase == Advance(provider.hash, old(passphrase), pass)
      ensures r == GetPassphrase()
      ensures timestamp == now
      ensures valid == old(valid) && publicKey == old(publicKey)
      ensures user == old(user) && id == old(id) && pass == old(pass)
    {
      Mutate(now);
      r := passphrase;
    }

    /**
     * The key exchange, which always resets: the session becomes valid again,
     * even after Invalidate, and the chain restarts from key.
     */
    method SetPublicKey(key: string, now: nat)
      modifies this
      ensures Consistent()
      ensures publicKey == key && valid && step == 1 && timestamp == now
      ensures passphrase == Advance(provider.hash, key, pass)
      ensures user == old(user) && id == old(id) && pass == old(pass)
    {
      publicKey := key;
      Reset(now);
    }

    function GetPublicKey(): (r: string)
      reads this
      ensures r == publicKey
    {
      publicKey
    }

    function GetTimestamp(): (r: nat)
      reads this
      ensures r == timestamp
    {
      timestamp
    }

    /** The ordering for sorted containers: by id alone. */
    predicate Less(other: Session)
      reads this, other
      ensures Less(other) ==> id != other.id
    {
      LexLessIrreflexive(id);
      LexLess(id, other.id)
    }

    /**
     * The authentication check: same user, same key, same passphrase, same
     * validity. Id (hence context) and the secret digest take no part.
     */
    predicate Equals(other: Session)
      reads this, other
      ensures Equals(other) <==>
        user == other.user && publicKey == other.publicKey && passphrase == other.passphrase && valid == other.valid
    {
      user == other.user
      && publicKey == other.publicKey
      && passphrase == other.passphrase
      && valid == other.valid
    }

    predicate NotEquals(other: Session)
      reads this, other
      ensures NotEquals(other) <==> !Equals(other)
    {
      !Equals(other)
    }
  }

  /** At the boundary instant a session is not yet timed out; one unit later it is. */
  lemma TimeoutBoundary(s: Session)
    ensures !s.IsTimedOut(s.timestamp + s.provider.expireTime)
    ensures s.IsTimedOut(s.timestamp + s.provider.expireTime + 1)
  {
  }

  /** Equality of sessions is an equivalence relation. */
  lemma EqualsIsEquivalence(a: Session, b: Session, c: Session)
    ensures a.Equals(a)
    ensures a.Equals(b) ==> b.Equals(a)
    ensures a.Equals(b) && b.Equals(c) ==> a.Equals(c)
  {
  }

  /** Sessions at the same point of the same chain, with the same user and validity, are equal. */
  lemma SameChainPositionIsEqual(a: Session, b: Session)
    requires a.Consistent() && b.Consistent() && a.provider.hash == b.provider.hash
    requires a.user == b.user && a.valid == b.valid
    requires a.publicKey == b.publicKey && a.pass == b.pass && a.step == b.step
    ensures a.Equals(b)
  {
  }

  /**
   * A session one mutation ahead of an otherwise synchronised peer differs
   * from it, provided the hash has no fixed point for this secret digest.
   */
  lemma OneSidedMutateBreaksEquality(a: Session, b: Session)
    requires a.Consistent() && b.Consistent() && a.provider.hash == b.provider.hash
    requires a.publicKey == b.publicKey && a.pass == b.pass && a.step == b.step + 1
    requires NoFixedPoint(a.provider.hash, a.pass)
    ensures !a.Equals(b)
  {
    StepMovesChain(a.provider.hash, a.publicKey, a.pass, b.step);
  }

  /** The session order is a strict weak order whose incomparable pairs are those with equal ids. */
  lemma LessIsStrictWeakOrder(a: Session, b: Session, c: Session)
    ensures !a.Less(a)
    ensures a.Less(b) && b.Less(c) ==> a.Less(c)
    ensures !a.Less(b) && !b.Less(a) <==> a.id == b.id
  {
    LexLessIrreflexive(a.id);
    if a.Less(b) && b.Less(c) {
      LexLessTransitive(a.id, b.id, c.id);
    }
    LexLessTrichotomous(a.id, b.id);
  }
}
