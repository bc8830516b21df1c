/**
 * The handoff payload built in `setupAuth` of src/frontend/src/index.js and, identically,
 * of src/greet_frontend/src/index.js:
 * `{ delegations: [{ delegation: { expiration, pubkey }, signature }], publicKey, status: true }`
 * with every byte string in hex and every expiry as a decimal string.
 */
module HandoffPayload {
  import opened Wrappers
  import opened Numerals
  import opened Hex
  import opened Delegations

  datatype PayloadDelegation = PayloadDelegation(expiration: string, pubkey: string)

  datatype PayloadEntry = PayloadEntry(delegation: PayloadDelegation, signature: string)

  datatype Payload = Payload(delegations: seq<PayloadEntry>, publicKey: string, status: bool)

  /** The `map` callback: `expiration.toString()` and `bytesToHex` of the key and signature. */
  function EntryOf(d: SignedDelegation): PayloadEntry {
    PayloadEntry(PayloadDelegation(Decimal(d.delegation.expiration), BytesToHex(d.delegation.pubkey)), BytesToHex(d.signature))
  }

  /** `delegations.map(...)`: one entry per delegation, in the chain's order. */
  function Entries(ds: seq<SignedDelegation>): (r: seq<PayloadEntry>)
    ensures |r| == |ds|
    ensures forall i :: 0 <= i < |ds| ==> r[i] == EntryOf(ds[i])
  {
    if ds == [] then [] else [EntryOf(ds[0])] + Entries(ds[1..])
  }

  /** The payload for a chain and the DER encoding of the session identity's public key. */
  function BuildPayload(chain: DelegationChain, publicKeyDer: seq<Byte>): (p: Payload)
    ensures p.status
    ensures |p.delegations| == |chain.delegations|
    ensures |p.publicKey| == 2 * |publicKeyDer|
    ensures forall k :: 0 <= k < |p.publicKey| ==> IsLowerHex(p.publicKey[k])
  {
    BytesToHexShape(publicKeyDer);
    Payload(Entries(chain.delegations), BytesToHex(publicKeyDer), true)
  }

  /** Reads a decimal string written by `toString()` on a non-negative integer. */
  function ReadDecimal(s: string): Option<nat> {
    if s != [] && AllDigits(s) then Some(DigitsValue(s)) else None
  }

  function ReadEntry(e: PayloadEntry): Option<SignedDelegation> {
    match (ReadDecimal(e.delegation.expiration), HexToBytes(e.delegation.pubkey), HexToBytes(e.signature))
    case (Some(expiration), Some(pubkey), Some(signature)) => Some(SignedDelegation(Delegation(pubkey, expiration), signature))
    case _ => None
  }

  function ReadEntries(es: seq<PayloadEntry>): Option<seq<SignedDelegation>> {
    if es == [] then Some([])
    else match (ReadEntry(es[0]), ReadEntries(es[1..]))
      case (Some(d), Some(rest)) => Some([d] + rest)
      case _ => None
  }

  /** What a receiver reads from a payload: the delegations and the public key's DER bytes. */
  function ReadPayload(p: Payload): Option<(seq<SignedDelegation>, seq<Byte>)> {
    if !p.status then None
    else match (ReadEntries(p.delegations), HexToBytes(p.publicKey))
      case (Some(ds), Some(key)) => Some((ds, key))
      case _ => None
  }

  lemma ReadEntryOf(d: SignedDelegation)
    ensures ReadEntry(EntryOf(d)) == Some(d)
  {
    DecimalValue(d.delegation.expiration);
    HexRoundTrip(d.delegation.pubkey);
    HexRoundTrip(d.signature);
  }

  lemma {:induction false} ReadEntriesBack(ds: seq<SignedDelegation>)
    ensures ReadEntries(Entries(ds)) == Some(ds)
  {
    if ds != [] {
      var es := Entries(ds);
      assert es[0] == EntryOf(ds[0]);
      assert es[1..] == Entries(ds[1..]);
      ReadEntryOf(ds[0]);
      ReadEntriesBack(ds[1..]);
      assert [ds[0]] + ds[1..] == ds;
    }
  }

  /**
   * Nothing is lost in the payload: a receiver reads back every delegation, in order,
   * with its key, expiry and signature, and the public key.
   */
  lemma PayloadRoundTrip(chain: DelegationChain, publicKeyDer: seq<Byte>)
    ensures ReadPayload(BuildPayload(chain, publicKeyDer)) == Some((chain.delegations, publicKeyDer))
  {
    ReadEntriesBack(chain.delegations);
    HexRoundTrip(publicKeyDer);
  }

  /** Being lossless, the payload tells different chains or keys apart. */
  lemma PayloadInjective(c1: DelegationChain, k1: seq<Byte>, c2: DelegationChain, k2: seq<Byte>)
    requires BuildPayload(c1, k1) == BuildPayload(c2, k2)
    ensures c1.delegations == c2.delegations && k1 == k2
  {
    PayloadRoundTrip(c1, k1);
    PayloadRoundTrip(c2, k2);
  }
}
