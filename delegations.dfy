/**
 * What the frontends need of `@dfinity/identity` and `@dfinity/auth-client`: the shape of
 * a delegation chain, the identity a client hands out, the five-day lifetime of a handoff
 * delegation, and the library calls whose results are inputs of the model.
 */
module Delegations {
  import opened Wrappers
  import opened Numerals

  /** One delegation: the delegated public key and its expiry in nanoseconds. */
  datatype Delegation = Delegation(pubkey: seq<Byte>, expiration: nat)

  datatype SignedDelegation = SignedDelegation(delegation: Delegation, signature: seq<Byte>)

  datatype DelegationChain = DelegationChain(delegations: seq<SignedDelegation>, publicKey: seq<Byte>)

  /**
   * The identity `authClient.getIdentity()` returns: its principal's text, and the chain
   * of `getDelegation()` when it is a `DelegationIdentity`.
   */
  datatype Identity = Identity(principal: string, delegation: Option<DelegationChain>)

  const MS_PER_DAY: nat := 24 * 60 * 60 * 1000

  /** `5 * 24 * 60 * 60 * 1000` milliseconds. */
  const HANDOFF_LIFETIME_MS: nat := 5 * 24 * 60 * 60 * 1000

  /** `new Date(Date.now() + 5 * 24 * 60 * 60 * 1000)`, in milliseconds since the epoch. */
  function HandoffExpiration(nowMs: nat): (t: nat)
    ensures t == nowMs + 432000000
    ensures t - nowMs == 5 * MS_PER_DAY
  {
    nowMs + HANDOFF_LIFETIME_MS
  }

  /**
   * The library calls of one run, as functions:
   * `decodeSessionKey` is `Ed25519PublicKey.fromDer(fromHexString(k))`, giving the key's DER
   * bytes or `None` where `fromDer` throws (`fromHexString` reads pairs with `parseInt` and
   * never throws); `createChain(from, to, expirationMs, previous)` is
   * `DelegationChain.create`, `None` where it rejects; `chainJson` is
   * `JSON.stringify(chain.toJSON())`.
   */
  datatype Library = Library(
    decodeSessionKey: string -> Option<seq<Byte>>,
    createChain: (seq<Byte>, seq<Byte>, nat, DelegationChain) -> Option<DelegationChain>,
    chainJson: DelegationChain -> string)

  /** How an `async` handler ends: it resolves, rejects with an exception, or never resolves. */
  datatype Completion = Resolved | Rejected | Pending
}
