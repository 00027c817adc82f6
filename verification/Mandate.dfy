/** Which decisions a party's mandate lets it sign, and the code each other one is refused with. */
module MandateValidation {
  import opened Common
  import opened Protocol

  /** A response that parses as JSON in one of the three shapes, or the structural code it breaks. */
  datatype Response =
    | OfferResponse(amount: nat)
    | AcceptResponse(offerHash: Digest)
    | WalkAwayResponse(reason: CloseReason)
    | Unreadable(code: Code)

  datatype CloseReason = TermsUnacceptable | InventoryConstraint | NoFurtherConcession

  datatype Code =
    | SchemaError | ExtraFields | InvalidAmount | ZeroAmount | InvalidOfferHash | InvalidReason
    | NotYourTurn | OfferLimitReached | NoActiveOffer | SelfAcceptance | StaleOfferHash | OfferExpired
    | AboveReservation | BelowReservation | InsufficientBalance | InventoryFloor

  /** Only the validator makes these, and only these are signed. */
  datatype Decision = ValidOffer(amount: nat) | ValidAccept(offerHash: Digest) | ValidWalkAway(reason: CloseReason)

  datatype Verdict = Accepted(decision: Decision) | Refused(code: Code)

  predicate HoldingsCode(code: Code) { code.InsufficientBalance? || code.InventoryFloor? }

  function RefuseOutOfTurn(o: Observation): Option<Code> {
    if NextProposer(o.history) == Some(o.role) then None else Some(NotYourTurn)
  }

  function RefusePastOfferLimit(o: Observation): Option<Code> {
    if o.offersRemaining > 0 && OffersRecorded(o.history) < o.session.maxOffers then None else Some(OfferLimitReached)
  }

  function RefuseOutsideReservation(o: Observation, amount: nat): Option<Code> {
    if o.role.Buyer? then (if amount <= o.mandate.reservation then None else Some(AboveReservation))
    else if amount >= o.mandate.reservation then None else Some(BelowReservation)
  }

  /** A buyer must hold `amount` of quote, a seller the base amount. */
  function RefuseUnaffordable(o: Observation, amount: nat): Option<Code> {
    if o.role.Buyer? then (if o.balances.quote >= amount then None else Some(InsufficientBalance))
    else if o.balances.base >= o.session.baseAmount then None else Some(InsufficientBalance)
  }

  /** The balance a trade at `amount` leaves of that same token must reach the floor. */
  function RefuseBelowFloor(o: Observation, amount: nat): Option<Code> {
    var after: int := if o.role.Buyer? then o.balances.quote - amount else o.balances.base - o.session.baseAmount;
    if after >= o.mandate.floor then None else Some(InventoryFloor)
  }

  function Or(a: Option<Code>, b: Option<Code>): Option<Code> { if a.Some? then a else b }

  function Conclude(refusal: Option<Code>, decision: Decision): Verdict {
    if refusal.Some? then Refused(refusal.value) else Accepted(decision)
  }

  function RefuseTrade(o: Observation, amount: nat): Option<Code> {
    Or(RefuseOutsideReservation(o, amount), Or(RefuseUnaffordable(o, amount), RefuseBelowFloor(o, amount)))
  }

  function ValidateOffer(amount: nat, o: Observation): Verdict {
    Conclude(Or(RefuseOutOfTurn(o), Or(RefusePastOfferLimit(o), RefuseTrade(o, amount))), ValidOffer(amount))
  }

  function RefuseAcceptance(hash: Digest, active: ActiveOffer, o: Observation): Option<Code> {
    if active.proposer == o.role then Some(SelfAcceptance)
    else if hash != active.offerHash then Some(StaleOfferHash)
    else if o.chainTime >= active.validUntil then Some(OfferExpired)
    else None
  }

  function ValidateAccept(hash: Digest, o: Observation): Verdict {
    if o.active.None? then Refused(NoActiveOffer)
    else
      var active := o.active.value;
      Conclude(Or(RefuseAcceptance(hash, active, o), RefuseTrade(o, active.quoteAmount)), ValidAccept(active.offerHash))
  }

  function Validate(r: Response, o: Observation): Verdict {
    match r
    case Unreadable(code) => Refused(code)
    case OfferResponse(amount) =>
      if amount > UINT256_MAX then Refused(InvalidAmount)
      else if amount == 0 then Refused(ZeroAmount)
      else ValidateOffer(amount, o)
    case AcceptResponse(hash) => ValidateAccept(hash, o)
    case WalkAwayResponse(reason) => Accepted(ValidWalkAway(reason))
  }

  /** The price a party's own mandate and holdings allow it to trade at. */
  predicate WithinMandate(role: Role, mandate: Mandate, balances: Balances, baseAmount: nat, price: nat) {
    if role.Buyer? then price <= mandate.reservation && price + mandate.floor <= balances.quote
    else price >= mandate.reservation && baseAmount + mandate.floor <= balances.base
  }

  /** The chain of trade refusals lets a price through exactly when it is within the mandate. */
  lemma TradeRefusedIffOutsideMandate(o: Observation, amount: nat)
    ensures RefuseTrade(o, amount).None? <==>
            WithinMandate(o.role, o.mandate, o.balances, o.session.baseAmount, amount)
  {
  }

  /** A refusal of the trade is for the holdings exactly when the price itself is within the
      reservation: the order of the checks is what the walk-away reason rests on. */
  lemma HoldingsRefusalIff(o: Observation, amount: nat)
    ensures (RefuseTrade(o, amount).Some? && HoldingsCode(RefuseTrade(o, amount).value)) <==>
            RefuseOutsideReservation(o, amount).None? &&
            !WithinMandate(o.role, o.mandate, o.balances, o.session.baseAmount, amount)
  {
  }

  /** Exactly what the validator signs off: each decision's whole condition. */
  lemma AcceptedIff(r: Response, o: Observation)
    ensures Validate(r, o).Accepted? <==>
      match r
      case Unreadable(_) => false
      case WalkAwayResponse(_) => true
      case OfferResponse(amount) =>
        1 <= amount <= UINT256_MAX && NextProposer(o.history) == Some(o.role)
        && o.offersRemaining > 0 && OffersRecorded(o.history) < o.session.maxOffers
        && WithinMandate(o.role, o.mandate, o.balances, o.session.baseAmount, amount)
      case AcceptResponse(hash) =>
        o.active.Some? && o.active.value.proposer != o.role && hash == o.active.value.offerHash
        && o.chainTime < o.active.value.validUntil
        && WithinMandate(o.role, o.mandate, o.balances, o.session.baseAmount, o.active.value.quoteAmount)
  {
  }

  /** The first of a trade's own refusals: the reservation, then the balance, then the floor. */
  predicate TradeRefusedFor(o: Observation, price: nat, code: Code) {
    var outside := if o.role.Buyer? then price > o.mandate.reservation else price < o.mandate.reservation;
    var held: int := if o.role.Buyer? then o.balances.quote else o.balances.base;
    var given: int := if o.role.Buyer? then price else o.session.baseAmount;
    match code
    case AboveReservation => o.role.Buyer? && outside
    case BelowReservation => o.role.Seller? && outside
    case InsufficientBalance => !outside && held < given
    case InventoryFloor => !outside && given <= held < given + o.mandate.floor
    case _ => false
  }

  /** Which code each response is refused with, in the validator's order. */
  predicate RefusedFor(r: Response, o: Observation, code: Code) {
    match r
    case Unreadable(structural) => code == structural
    case WalkAwayResponse(_) => false
    case OfferResponse(amount) =>
      if amount == 0 then code == ZeroAmount
      else if amount > UINT256_MAX then code == InvalidAmount
      else if NextProposer(o.history) != Some(o.role) then code == NotYourTurn
      else if o.offersRemaining == 0 || OffersRecorded(o.history) >= o.session.maxOffers then code == OfferLimitReached
      else TradeRefusedFor(o, amount, code)
    case AcceptResponse(hash) =>
      (match o.active
       case None => code == NoActiveOffer
       case Some(active) =>
         if active.proposer == o.role then code == SelfAcceptance
         else if hash != active.offerHash then code == StaleOfferHash
         else if active.validUntil <= o.chainTime then code == OfferExpired
         else TradeRefusedFor(o, active.quoteAmount, code))
  }

  lemma TradeRefusedIff(o: Observation, price: nat, code: Code)
    ensures RefuseTrade(o, price) == Some(code) <==> TradeRefusedFor(o, price, code)
  {
  }

  /** Exactly what each refusal says. */
  lemma RefusedIff(r: Response, o: Observation, code: Code)
    ensures Validate(r, o) == Refused(code) <==> RefusedFor(r, o, code)
  {
    if r.OfferResponse? {
      TradeRefusedIff(o, r.amount, code);
    } else if r.AcceptResponse? && o.active.Some? {
      TradeRefusedIff(o, o.active.value.quoteAmount, code);
    }
  }

  /** And an accepted response is the decision it asks for. */
  lemma AcceptedIsAsked(r: Response, o: Observation)
    requires Validate(r, o).Accepted?
    ensures match r
      case OfferResponse(amount) => Validate(r, o).decision == ValidOffer(amount)
      case AcceptResponse(hash) => Validate(r, o).decision == ValidAccept(hash)
      case WalkAwayResponse(reason) => Validate(r, o).decision == ValidWalkAway(reason)
      case Unreadable(_) => false
  {
  }
}
