/** Independent chain evidence and how it is compared with an intended effect. */
module Evidence {
  import opened MissionIdentity
  import opened Missions

  // ---- shapes ----

  predicate IsHexText(s: string, digits: nat) {
    |s| == digits + 2 && s[0] == '0' && s[1] == 'x' && forall i :: 2 <= i < |s| ==> IsHexDigit(s[i])
  }

  /** An address or hash as the constructors leave it. */
  predicate IsLoweredHex(s: string, digits: nat) {
    IsHexText(s, digits) && Lower(s) == s
  }

  datatype Transfer = Transfer(
    chainId: int, token: string, sender: string, recipient: string, amount: int,
    transactionHash: string, blockHash: string, logIndex: nat, confirmations: nat)

  datatype Observation = VerifiedTransfer(transfer: Transfer) | NotFound | Ambiguous

  /** What the constructor of a transfer accepts and keeps. */
  predicate WellFormedTransfer(t: Transfer) {
    && t.chainId >= 1 && t.amount >= 1
    && IsLoweredHex(t.token, 40) && IsLoweredHex(t.sender, 40) && IsLoweredHex(t.recipient, 40)
    && IsLoweredHex(t.transactionHash, 64) && IsLoweredHex(t.blockHash, 64)
  }

  predicate WellFormedObservation(o: Observation) {
    o.VerifiedTransfer? ==> WellFormedTransfer(o.transfer)
  }

  predicate EconomicMatch(e: EffectRecord, sender: string, t: Transfer) {
    && t.chainId == e.chainId && t.token == e.token && t.sender == sender
    && t.recipient == e.recipient && t.amount == e.amount
  }

  /** Evidence strong enough to confirm an effect. */
  predicate Confirms(e: EffectRecord, sender: string, minimum: int, o: Observation) {
    && o.VerifiedTransfer? && EconomicMatch(e, sender, o.transfer)
    && 1 <= minimum <= o.transfer.confirmations
  }
}
