/** Where the money goes: what a transfer body asks the provider for, and the chain evidence that answers it. */
module Payments {
  import opened Missions
  import opened Attempts
  import opened Authorizations
  import opened Evidence
  import opened AmountPrinting

  /** The intent is to pay this effect: its chain, token, token scale, recipient and amount. */
  predicate Carries(i: Intent, e: EffectRecord) {
    && i.chainId == e.chainId && i.token == e.token && i.decimals == e.decimals
    && i.recipient == e.recipient && i.amount == e.amount
  }

  /** The transfer does what the body asks for: on the body's chain, the body's token moved to the body's recipient,
      and the printed amount, read at this token scale, is the number of base units that moved. */
  predicate Fulfils(t: Transfer, body: Body, decimals: int) {
    && t.chainId == body.chainId && t.token == body.token && t.recipient == body.recipient
    && decimals >= 0 && IsCanonicalDecimal(body.amount) && |FractionPart(body.amount)| <= decimals
    && t.amount == ScaledValue(body.amount, decimals)
  }

  /** The body, read on its own, says what the intent says: where the money goes, on which chain, how much of which
      token, with which gas limit, and whether this is only a simulation. */
  predicate Asks(body: Body, i: Intent, simulate: bool) {
    && body.chainId == i.chainId && body.token == i.token && body.recipient == i.recipient
    && body.gas == i.gas && body.simulate == simulate
    && i.decimals >= 0 && IsCanonicalDecimal(body.amount) && |FractionPart(body.amount)| <= i.decimals
    && ScaledValue(body.amount, i.decimals) == i.amount
  }

  lemma BodyAsksForIntent(i: Intent)
    requires ValidIntent(i)
    ensures Asks(BroadcastBody(i), i, false) && Asks(SimulationBody(i), i, true)
  {
    PrintingIsExact(i.amount, i.decimals);
    hide Print, IsCanonicalDecimal, ScaledValue, FractionPart;
  }

  /** A body pins the money: at one token scale it asks for one intent only, so equal bodies move equal amounts to equal
      places. */
  lemma BodyPinsTransfer(i: Intent, j: Intent, body: Body, simulate: bool)
    requires ValidIntent(i) && ValidIntent(j) && i.decimals == j.decimals
    ensures Asks(BroadcastBody(i), i, false) && Asks(SimulationBody(i), i, true)
    ensures Asks(body, i, simulate) && Asks(body, j, simulate) ==> i == j
    ensures BroadcastBody(i) == BroadcastBody(j) || SimulationBody(i) == SimulationBody(j) ==> i == j
  {
    BodyAsksForIntent(i);
    BodyAsksForIntent(j);
    hide BroadcastBody, SimulationBody, IsCanonicalDecimal, ScaledValue, FractionPart;
  }

  /** Body and evidence meet: a transfer from the expected sender does what the body asks for if and only if it is
      the economic match of the effect that the intent carries. */
  lemma BodyAsksForEffect(i: Intent, e: EffectRecord, sender: string, t: Transfer)
    requires ValidIntent(i) && Carries(i, e)
    ensures Fulfils(t, BroadcastBody(i), e.decimals) && t.sender == sender <==> EconomicMatch(e, sender, t)
    ensures Fulfils(t, SimulationBody(i), e.decimals) && t.sender == sender <==> EconomicMatch(e, sender, t)
  {
    hide *;
    BodyAsksForIntent(i);
    AskedIsOwed(BroadcastBody(i), i, false, e, sender, t);
    AskedIsOwed(SimulationBody(i), i, true, e, sender, t);
  }

  /** A body that asks for what an intent says is fulfilled, from the expected sender, by the economic matches of the
      effect that the intent carries, and by nothing else. */
  lemma AskedIsOwed(body: Body, i: Intent, simulate: bool, e: EffectRecord, sender: string, t: Transfer)
    requires Asks(body, i, simulate) && Carries(i, e)
    ensures Fulfils(t, body, e.decimals) && t.sender == sender <==> EconomicMatch(e, sender, t)
  {
    hide IsCanonicalDecimal, ScaledValue, FractionPart;
  }

}
