/**
 * The two places in the bot that turn an observed event into a coin delta:
 * the `/start` command and the payload the mini application sends back.
 */
module Events {

  import opened Options

  /**
   * The already-parsed JSON object the mini application sends. Each field is
   * None when its key is absent; `offerId` holds the value as Python's string
   * formatting renders it.
   */
  datatype Payload = Payload(kind: Option<string>, reward: Option<int>, offerId: Option<string>)

  /** The amount and description handed to `update_user_coins`. */
  datatype Delta = Delta(amount: int, description: string)

  /** The only payload `type` that moves coins. */
  const CompleteOffer: string := "complete_offer"

  /** The text in front of the offer id in an offer's description. */
  const OfferPrefix: string := "Completed offer "

  /** The description `/start` records. */
  const RegistrationDescription: string := "Initial registration"

  /** `/start` touches the user with a zero amount. */
  const StartDelta: Delta := Delta(0, RegistrationDescription)

  /** How a Python f-string renders an optional value: a missing value prints as `None`. */
  function OfferIdText(o: Option<string>): string {
    o.GetOr("None")
  }

  /**
   * The payload branch of `web_app_data`: only a `complete_offer` payload
   * produces a delta; its amount is `reward` (0 when absent) and its
   * description names the offer.
   */
  function WebAppDelta(p: Payload): (r: Option<Delta>)
    ensures r.Some? <==> p.kind == Some(CompleteOffer)
    ensures r.Some? ==> r.value.amount == p.reward.GetOr(0)
    ensures r.Some? ==> |OfferPrefix| <= |r.value.description|
                        && r.value.description[..|OfferPrefix|] == OfferPrefix
                        && r.value.description[|OfferPrefix|..] == OfferIdText(p.offerId)
  {
    if p.kind == Some(CompleteOffer) then
      Some(Delta(p.reward.GetOr(0), OfferPrefix + OfferIdText(p.offerId)))
    else
      None
  }

  /** Reads the offer id back out of a transaction description, or None when it is not an offer's. */
  function OfferOfDescription(d: string): (r: Option<string>)
    ensures r.Some? <==> |OfferPrefix| <= |d| && d[..|OfferPrefix|] == OfferPrefix
    ensures r.Some? ==> OfferPrefix + r.value == d
  {
    if |OfferPrefix| <= |d| && d[..|OfferPrefix|] == OfferPrefix then Some(d[|OfferPrefix|..]) else None
  }

  /** The description of an offer's row records which offer it was. */
  lemma OfferDescriptionRoundTrip(p: Payload)
    requires p.kind == Some(CompleteOffer)
    ensures OfferOfDescription(WebAppDelta(p).value.description) == Some(OfferIdText(p.offerId))
  {
  }

  /** Offers whose ids render differently get different descriptions. */
  lemma OfferDescriptionsDistinct(p: Payload, q: Payload)
    requires p.kind == Some(CompleteOffer) && q.kind == Some(CompleteOffer)
    requires OfferIdText(p.offerId) != OfferIdText(q.offerId)
    ensures WebAppDelta(p).value.description != WebAppDelta(q).value.description
  {
  }
}
