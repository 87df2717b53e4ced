/** The client/server exchange of the sample program, as a verified client of Session. */
module Lockstep {
  import opened PassphraseChain
  import opened Auth

  /**
   * The client adopts the server's public key, then both sides mutate in
   * lockstep, one mutation per clock reading on each side. After every pair
   * of mutations the two sessions are equal again. The result records whether
   * every one-sided comparison (client already mutated, server not yet) found
   * the sessions unequal.
   */
  method MutateInLockstep(client: Session, server: Session, keyTime: nat, clientClock: seq<nat>, serverClock: seq<nat>)
    returns (differed: bool)
    requires client != server
    requires server.Consistent() && server.step == 1 && server.valid
    requires client.provider.hash == server.provider.hash
    requires client.user == server.user && client.pass == server.pass
    requires |clientClock| == |serverClock|
    modifies client, server
    ensures client.Equals(server)
    ensures client.Consistent() && server.Consistent()
    ensures client.publicKey == server.publicKey == old(server.publicKey)
    ensures client.step == server.step == |clientClock| + 1
    ensures client.passphrase == Chain(server.provider.hash, server.publicKey, server.pass, |clientClock| + 1)
    ensures client.passphrase == Iterate(server.provider.hash, old(server.passphrase), server.pass, |clientClock|)
    ensures client.id == old(client.id) && server.id == old(server.id)
    ensures client.pass == old(client.pass) && server.pass == old(server.pass)
    ensures NoFixedPoint(server.provider.hash, server.pass) ==> differed
  {
    client.SetPublicKey(server.GetPublicKey(), keyTime);
    differed := true;
    var i := 0;
    while i < |clientClock|
      invariant 0 <= i <= |clientClock|
      invariant client.Consistent() && server.Consistent()
      invariant client.step == server.step == i + 1
      invariant client.publicKey == server.publicKey == old(server.publicKey)
      invariant client.user == server.user && client.valid == server.valid
      invariant client.id == old(client.id) && server.id == old(server.id)
      invariant client.pass == old(client.pass) && server.pass == old(server.pass)
      invariant NoFixedPoint(server.provider.hash, server.pass) ==> differed
    {
      client.Mutate(clientClock[i]);
      if NoFixedPoint(server.provider.hash, server.pass) {
        OneSidedMutateBreaksEquality(client, server);
      }
      differed := differed && client.NotEquals(server);
      server.Mutate(serverClock[i]);
      i := i + 1;
    }
    ChainCompose(server.provider.hash, server.publicKey, server.pass, 1, |clientClock|);
  }
}
