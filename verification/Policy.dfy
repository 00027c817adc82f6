/** The deterministic baseline: accept what the validator allows, else concede on schedule, else leave. */
module DeterministicPolicy {
  import opened Common
  import opened Protocol
  import opened MandateValidation
  import Concession

  predicate Playable(o: Observation) {
    o.offersRemaining > 0 ==> Opportunities(o.role, o.session.maxOffers) >= 1
  }

  function NextPrice(o: Observation): nat
    requires Opportunities(o.role, o.session.maxOffers) >= 1
  {
    Concession.Price(o.role, o.mandate.reservation, OwnOffersRecorded(o.history, o.role),
                     Opportunities(o.role, o.session.maxOffers))
  }

  predicate Incoming(o: Observation) {
    o.active.Some? && o.active.value.proposer != o.role
  }

  predicate IncomingOutsideBound(o: Observation) {
    Incoming(o) &&
    if o.role.Buyer? then o.active.value.quoteAmount > o.mandate.reservation
    else o.active.value.quoteAmount < o.mandate.reservation
  }

  function Reason(o: Observation, heldBack: bool): CloseReason {
    if heldBack then InventoryConstraint
    else if o.offersRemaining == 0 && IncomingOutsideBound(o) then TermsUnacceptable
    else NoFurtherConcession
  }

  predicate ForHoldings(v: Verdict) {
    v.Refused? && HoldingsCode(v.code)
  }

  function Choose(o: Observation): Response
    requires Playable(o)
  {
    var acceptance := if Incoming(o) then AcceptResponse(o.active.value.offerHash) else Unreadable(NoActiveOffer);
    if Incoming(o) && Validate(acceptance, o).Accepted? then acceptance
    else
      var heldBack := Incoming(o) && ForHoldings(Validate(acceptance, o));
      if o.offersRemaining > 0 then
        var offer := OfferResponse(NextPrice(o));
        if Validate(offer, o).Accepted? then offer
        else WalkAwayResponse(Reason(o, heldBack || ForHoldings(Validate(offer, o))))
      else WalkAwayResponse(Reason(o, heldBack))
  }

  /** No repair is ever needed: the validator accepts whatever the policy answers. Its own scheduled
      price is refused for no reason but its turn, its count, its holdings, or — a buyer with a
      reservation of 0 — the bound itself. */
  lemma NeverRefused(o: Observation)
    requires Playable(o) && o.mandate.reservation <= UINT256_MAX
    ensures Validate(Choose(o), o).Accepted?
    ensures o.offersRemaining > 0 ==>
      match Validate(OfferResponse(NextPrice(o)), o)
      case Accepted(_) => true
      case Refused(code) =>
        code in {NotYourTurn, OfferLimitReached, InsufficientBalance, InventoryFloor}
        || (code == AboveReservation && o.role == Buyer && o.mandate.reservation == 0)
  {
    if o.offersRemaining > 0 {
      Concession.SafeSide(o.role, o.mandate.reservation, OwnOffersRecorded(o.history, o.role),
                          Opportunities(o.role, o.session.maxOffers));
    }
  }

  /** When an acceptable offer stands the policy takes it, whatever it could still ask for. */
  lemma AcceptsWhatItMay(o: Observation)
    requires Playable(o)
    ensures Choose(o).AcceptResponse? <==>
      Incoming(o) && o.chainTime < o.active.value.validUntil &&
      WithinMandate(o.role, o.mandate, o.balances, o.session.baseAmount, o.active.value.quoteAmount)
  {
    if Incoming(o) {
      AcceptedIff(AcceptResponse(o.active.value.offerHash), o);
    }
  }

  predicate WithinReservation(o: Observation, price: nat) {
    if o.role.Buyer? then price <= o.mandate.reservation else price >= o.mandate.reservation
  }

  predicate Allowed(o: Observation, price: nat) {
    WithinMandate(o.role, o.mandate, o.balances, o.session.baseAmount, price)
  }

  /** The price is one the party would trade at and only its balance or floor forbids. */
  predicate OnlyHoldingsForbid(o: Observation, price: nat) { WithinReservation(o, price) && !Allowed(o, price) }

  /** The other party's offer, not expired. */
  predicate MayBeAccepted(o: Observation) { Incoming(o) && o.chainTime < o.active.value.validUntil }

  predicate MayOffer(o: Observation) {
    o.offersRemaining > 0 && NextProposer(o.history) == Some(o.role) && OffersRecorded(o.history) < o.session.maxOffers
  }

  /** The price of the party's next offer, if it has one left, is its line's. */
  predicate IsAsked(o: Observation, price: nat) {
    o.offersRemaining > 0 ==>
      Opportunities(o.role, o.session.maxOffers) >= 1
      && Concession.Asks(o.role, o.mandate.reservation, OwnOffersRecorded(o.history, o.role),
                         Opportunities(o.role, o.session.maxOffers), price)
  }

  /** The whole decision: accept what may be accepted, else offer on the line, else leave, over holdings
      if they alone forbid either, over the terms if no offer is left and the one received is outside
      the reservation, and otherwise for want of a further concession. */
  predicate Answers(o: Observation, price: nat, r: Response) {
    if MayBeAccepted(o) && Allowed(o, o.active.value.quoteAmount) then r == AcceptResponse(o.active.value.offerHash)
    else if MayOffer(o) && Allowed(o, price) then r == OfferResponse(price)
    else if (MayBeAccepted(o) && OnlyHoldingsForbid(o, o.active.value.quoteAmount))
         || (MayOffer(o) && OnlyHoldingsForbid(o, price)) then r == WalkAwayResponse(InventoryConstraint)
    else if o.offersRemaining == 0 && Incoming(o) && !WithinReservation(o, o.active.value.quoteAmount)
         then r == WalkAwayResponse(TermsUnacceptable)
    else r == WalkAwayResponse(NoFurtherConcession)
  }

  lemma AcceptanceVerdict(o: Observation)
    requires Incoming(o)
    ensures var v := Validate(AcceptResponse(o.active.value.offerHash), o);
      && (v.Accepted? <==> MayBeAccepted(o) && Allowed(o, o.active.value.quoteAmount))
      && (ForHoldings(v) <==> MayBeAccepted(o) && OnlyHoldingsForbid(o, o.active.value.quoteAmount))
  {
    AcceptedIff(AcceptResponse(o.active.value.offerHash), o);
    HoldingsRefusalIff(o, o.active.value.quoteAmount);
  }

  lemma OfferVerdict(o: Observation, price: nat)
    requires 1 <= price <= UINT256_MAX && o.offersRemaining > 0
    ensures var v := Validate(OfferResponse(price), o);
      && (v.Accepted? <==> MayOffer(o) && Allowed(o, price))
      && (ForHoldings(v) <==> MayOffer(o) && OnlyHoldingsForbid(o, price))
  {
    AcceptedIff(OfferResponse(price), o);
    HoldingsRefusalIff(o, price);
  }

  /** Of every observation, the policy's one answer. */
  lemma ChoosesWhatItAnswers(o: Observation, price: nat)
    requires Playable(o) && o.mandate.reservation <= UINT256_MAX && IsAsked(o, price)
    ensures Answers(o, price, Choose(o))
  {
    if Incoming(o) {
      AcceptanceVerdict(o);
    }
    if o.offersRemaining > 0 {
      var r, n := o.mandate.reservation, Opportunities(o.role, o.session.maxOffers);
      var k := OwnOffersRecorded(o.history, o.role);
      Concession.PriceIsOnTheLine(o.role, r, k, n);
      Concession.OnePriceIsAsked(o.role, r, k, n, price, NextPrice(o));
      Concession.SafeSide(o.role, r, k, n);
      OfferVerdict(o, price);
    }
  }
}
