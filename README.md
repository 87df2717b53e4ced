# auth session, modelled in Dafny

A model of `auth::session`, a small client/server mutual-authentication
primitive. Each side holds a session with a user name, a context-qualified id
and the digest of a shared secret. The two sides agree on a public key
(a nonce) out of band. Each mutation then advances a rolling passphrase: the
new passphrase is the hash of the old one with the secret digest appended.
Sessions at the same step of the same chain, for the same user and with the
same validity, compare equal. That equality is the authentication check.
The converse (equal sessions are at the same step) would need an assumption
about the hash that the model does not make.

Files:

- `session.dfy`, module `Auth`: the `Session` class, with the source's seven
  fields and every member function of the C++ class. It also holds the
  `Provider` capabilities (hash and expiry window), the id derivation, and the
  lemmas about equality, ordering and timeout.
- `passphrase_chain.dfy`, module `PassphraseChain`: the chain as a pure
  function `Chain(hash, publicKey, pass, k)`, an independent reference
  definition `Iterate`, and the lemmas that connect the two.
- `string_order.dfy`, module `StringOrder`: the lexicographic order that
  `std::string`'s `operator<` uses, which orders sessions.
- `lockstep.dfy`, module `Lockstep`: the sample program's exchange, written
  as a verified client of `Session`. The client adopts the server's key, then
  both sides mutate in lockstep.

The provider is the embedding system's, so it is a parameter everywhere:

- The hash is a function value `string -> string` about which nothing is
  assumed. It is stored, with the expiry window, in the session's `provider`
  constant.
- Every clock reading `now()` is a `nat` argument of the operation that reads
  the clock.
- The value `salt()` would return is an argument of `Setup`. It is used only
  when the given key is empty.

A ghost field `step` counts the mutations since the last reset, counting the
reset's own mutation; every key exchange performs a reset. The object
invariant `Consistent()` says `step >= 1` and
`passphrase == Chain(hash, publicKey, pass, step)`. So right after a key
exchange the passphrase is `hash(key + pass)`, not the key itself. After k
further mutations it is the hash applied k + 1 times. Every method that changes
the state says, in its `ensures`, exactly which fields change and how.

Strings are `seq<char>`. The C++ strings are byte strings; characters compare
by code, as bytes do under the standard character traits.

## Model

| member | source | states |
|---|---|---|
| Auth.MakeId | auth.hpp:66 | the id is the name, then `;`, then the context: its length and its three parts are fixed by the inputs |
| Auth.MakeIdSeparatesContexts | auth.hpp:66 | one user in two different contexts gets two different ids |
| Auth.Session.Default | auth.hpp:49-57 | the default session has empty user, id and pass (the empty secret is not hashed) and an empty key; it is valid at step 1 with passphrase `hash("")`, touched at now |
| Auth.Session.constructor | auth.hpp:59-62 | constructing with name, secret, context and key has exactly the effect of Setup |
| Auth.Session.Setup | auth.hpp:64-69 | user is name, id is MakeId(name, context), pass is hash(secret); the key is the given one, or the salt when it is empty; the session is valid at step 1 with passphrase `hash(key + pass)` |
| Auth.Session.Touch | auth.hpp:71-73 | only the timestamp changes, to now; the invariant holds afterwards exactly when it held before |
| Auth.Session.IsTimedOut | auth.hpp:75-77 | a read-only predicate, true exactly when now is more than the expiry window past the timestamp |
| Auth.TimeoutBoundary | auth.hpp:75-77 | at exactly timestamp + expire_time the session is not timed out; one unit later it is |
| Auth.Session.IsValid | auth.hpp:79-81 | reads the validity flag |
| Auth.Session.Invalidate | auth.hpp:83-85 | only the validity flag changes, to false; passphrase, key, identity and timestamp are kept; the invariant holds afterwards exactly when it held before |
| Auth.Session.Reset | auth.hpp:87-91 | valid becomes true, the chain restarts from the public key and takes one step (passphrase `hash(publicKey + pass)`, step 1, timestamp now); identity, pass and key are kept |
| Auth.Session.Mutate | auth.hpp:93-96 | the passphrase becomes `hash(old passphrase + pass)`, the step grows by one, the timestamp becomes now; validity, identity, pass and key are kept; the invariant is re-established |
| Auth.Session.GetUserId | auth.hpp:98-100 | reads the id |
| Auth.Session.GetUserName | auth.hpp:101-103 | reads the user name |
| Auth.Session.GetPassphrase | auth.hpp:105-107 | reads the passphrase, which for a consistent session is the chain value at the current step |
| Auth.Session.NextPassphrase | auth.hpp:108-111 | the same state change as Mutate, and the returned value is what GetPassphrase reads right afterwards |
| Auth.Session.SetPublicKey | auth.hpp:113-117 | the key becomes the given one; the session is valid again even after Invalidate; passphrase `hash(key + pass)`, step 1, timestamp now; user, id and pass are kept |
| Auth.Session.GetPublicKey | auth.hpp:119-121 | reads the public key |
| Auth.Session.GetTimestamp | auth.hpp:123-125 | reads the timestamp |
| Auth.Session.Less | auth.hpp:141-143 | orders by id alone; two sessions with equal ids are never ordered |
| Auth.LessIsStrictWeakOrder | auth.hpp:141-143 | the order is irreflexive and transitive, and two sessions are incomparable exactly when their ids are equal |
| Auth.Session.Equals | auth.hpp:144-149 | equal exactly when user, public key, passphrase and validity agree; id and pass take no part |
| Auth.Session.NotEquals | auth.hpp:150-152 | the negation of Equals |
| Auth.EqualsIsEquivalence | auth.hpp:144-149 | equality is reflexive, symmetric and transitive |
| Auth.SameChainPositionIsEqual | auth.hpp:87-96 | two consistent sessions with the same hash, user, validity, key, pass and step are equal, whatever their ids and timestamps |
| Auth.OneSidedMutateBreaksEquality | sample.cc:41 | a session one step ahead of an otherwise synchronised peer is unequal to it, if the hash has no fixed point for this pass |
| StringOrder.LexLessIrreflexive | auth.hpp:142 | no string is less than itself |
| StringOrder.LexLessTransitive | auth.hpp:142 | the string order is transitive |
| StringOrder.LexLessTrichotomous | auth.hpp:142 | for any two strings exactly one of less, equal and greater holds |
| PassphraseChain.IterateLast | auth.hpp:93-96 | k + 1 steps from a start are one step after k steps |
| PassphraseChain.ChainIsIterate | auth.hpp:93-96 | the chain agrees at every step with the reference definition that iterates from the key outwards |
| PassphraseChain.ChainAfterReset | auth.hpp:87-96 | after the key exchange and k further mutations the passphrase is the hash applied k + 1 times, starting from `hash(publicKey + pass)`: a function of key, pass and k only |
| PassphraseChain.ChainCompose | auth.hpp:93-96 | i steps followed by j more give the chain value at step i + j |
| PassphraseChain.StepMovesChain | auth.hpp:93-96 | if the hash has no fixed point for pass, each step changes the passphrase |
| Lockstep.MutateInLockstep | sample.cc:36-43 | after the client adopts the server's key the two are equal. After any equal number of mutations on each side, whatever the clock readings, they are equal again, at step n + 1 of the shared chain, n steps past the server's passphrase before the exchange, and both keep their ids. If the hash has no fixed point, every one-sided comparison found them unequal |

## Left out

- The reference provider (a compiler-specific `std::hash`, unseeded `rand()`, the system clock, a 300 s window): the hash, the clock readings, the salt and the window are parameters of the model.
- The stream-insertion debug operator and the printing in the sample program: output only (the operator prints the object's address).
- The sample's first assertion, that two freshly set up sessions differ: it rests on two `salt()` calls returning different values, which is randomness.
- The `size_t` timestamp, the `unsigned long long` clock, and the truncation or overflow of `timestamp + expire_time`: timestamps and durations are unbounded `nat`s.
- Monotonicity of the clock is the provider's promise, not the session's, so the model accepts any clock reading. The invariant that the timestamp only increases therefore holds exactly when the caller's readings do not decrease.
- Security properties (collision resistance, the unpredictability of the salt): nothing in the code bears on them. The only assumption about the hash is the explicit `NoFixedPoint` hypothesis of the two lemmas and the one ensures that use it.
- The source's default arguments (`context` and `public_key` default to the empty string in the constructor and in `setup`): the model takes them as explicit arguments, and a caller passes `""` for the default.
- Concurrency: the session is single-threaded with no locking, and so is the model.
