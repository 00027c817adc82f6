/** The contract's side of a session: which signed actions it takes, and what it logs. */
module Exchange {
  import opened Common
  import opened Protocol
  import opened Signing
  import Builder

  datatype Status = Open | Settled | Closed

  datatype Revert =
    | SessionNotOpen | SessionDeadlinePassed | ConfigHashMismatch | SequenceMismatch | BadSignature | NotParticipant
    | NotProposerTurn | OfferLimitReached | InvalidQuoteAmount | InvalidValidUntil
    | NoActiveOffer | StaleOfferDigest | OfferExpired | SelfAcceptance | TransferFailed | InvalidReason | UnknownSession

  /** What each party's wallet lets the exchange take: its balance of the token it gives up, and
      the allowance it granted during setup. */
  datatype Purse = Purse(balance: nat, allowance: nat)

  datatype State = State(session: Session, status: Status, sequence: nat, offerCount: nat, activeHash: Option<Digest>,
                         activeProposer: Address, activeQuote: nat, activeValidUntil: nat,
                         buyer: Purse, seller: Purse, log: seq<Builder.Offer>, settledAt: Option<nat>)

  /** A session as `createSession` leaves it. */
  function Opened(s: Session, buyer: Purse, seller: Purse): State {
    State(s, Open, 0, 0, None, 0, 0, 0, buyer, seller, [], None)
  }

  function SenderOf(m: Message): Address {
    match m
    case OfferMessage(_, _, _, proposer, _, _) => proposer
    case AcceptMessage(_, _, _, actor, _) => actor
    case CloseMessage(_, _, _, actor, _) => actor
  }

  /** Steps every signed entry point shares; the signature recovers the signer only over the digest
      of these very fields. */
  function VerifyCommon(x: State, a: SignedAction, now: nat): Option<Revert> {
    if a.message.sessionId != x.session.sessionId then Some(UnknownSession)
    else if x.status != Open then Some(SessionNotOpen)
    else if now >= x.session.expiresAt then Some(SessionDeadlinePassed)
    else if a.message.configHash != x.session.configHash then Some(ConfigHashMismatch)
    else if a.message.sequence != x.sequence + 1 then Some(SequenceMismatch)
    else if a.digest != HashOf(x.session.Domain(), a.message) || a.signer != SenderOf(a.message) then Some(BadSignature)
    else if a.signer != x.session.buyer && a.signer != x.session.seller then Some(NotParticipant)
    else None
  }

  function NextProposerOf(x: State): Address {
    if x.offerCount == 0 then x.session.buyer
    else if x.activeProposer == x.session.buyer then x.session.seller else x.session.buyer
  }

  function RecordOffer(x: State, a: SignedAction, now: nat): Result<State, Revert>
    requires a.message.OfferMessage?
  {
    var m := a.message;
    var common := VerifyCommon(x, a, now);
    if common.Some? then Err(common.value)
    else if m.proposer != NextProposerOf(x) then Err(NotProposerTurn)
    else if x.offerCount == x.session.maxOffers then Err(OfferLimitReached)
    else if m.quoteAmount == 0 then Err(InvalidQuoteAmount)
    else if m.validUntil <= now || m.validUntil > x.session.expiresAt then Err(InvalidValidUntil)
    else
      var hash := HashOf(x.session.Domain(), m);
      Ok(x.(sequence := m.sequence, offerCount := x.offerCount + 1, activeHash := Some(hash),
            activeProposer := m.proposer, activeQuote := m.quoteAmount, activeValidUntil := m.validUntil,
            log := x.log + [Builder.Offer(m.sequence, m.proposer, m.quoteAmount, m.validUntil, hash)]))
  }

  predicate CanTake(p: Purse, amount: nat) {
    amount <= p.balance && amount <= p.allowance
  }

  function AcceptAndSettle(x: State, a: SignedAction, now: nat): Result<State, Revert>
    requires a.message.AcceptMessage?
  {
    var m := a.message;
    var common := VerifyCommon(x, a, now);
    if common.Some? then Err(common.value)
    else if x.activeHash.None? then Err(NoActiveOffer)
    else if Some(m.offerHash) != x.activeHash then Err(StaleOfferDigest)
    else if now >= x.activeValidUntil then Err(OfferExpired)
    else if m.actor == x.activeProposer then Err(SelfAcceptance)
    else if !CanTake(x.buyer, x.activeQuote) || !CanTake(x.seller, x.session.baseAmount) then Err(TransferFailed)
    else Ok(x.(status := Settled, sequence := m.sequence, activeHash := None, settledAt := Some(x.activeQuote)))
  }

  function CloseSession(x: State, a: SignedAction, now: nat): Result<State, Revert>
    requires a.message.CloseMessage?
  {
    var common := VerifyCommon(x, a, now);
    if common.Some? then Err(common.value)
    else if a.message.reason == 0 || a.message.reason > 3 then Err(InvalidReason)
    else Ok(x.(status := Closed, sequence := a.message.sequence))
  }

  function Submit(x: State, a: SignedAction, now: nat): Result<State, Revert> {
    match a.message
    case OfferMessage(_, _, _, _, _, _) => RecordOffer(x, a, now)
    case AcceptMessage(_, _, _, _, _) => AcceptAndSettle(x, a, now)
    case CloseMessage(_, _, _, _, _) => CloseSession(x, a, now)
  }

  // ---------------------------------------------------------------------------------------------
  // What the contract takes
  // ---------------------------------------------------------------------------------------------

  /** The signed action is the next one of this open session, in time, and signed by the party it names. */
  predicate NextOfSession(x: State, a: SignedAction, now: nat) {
    && x.status.Open? && now < x.session.expiresAt
    && a.message.sessionId == x.session.sessionId && a.message.configHash == x.session.configHash
    && a.message.sequence == x.sequence + 1
    && a.digest == HashOf(SigningDomain(x.session.chainId, x.session.exchange), a.message)
    && (a.signer == x.session.buyer || a.signer == x.session.seller)
    && a.signer == match a.message
         case OfferMessage(_, _, _, proposer, _, _) => proposer
         case AcceptMessage(_, _, _, actor, _) => actor
         case CloseMessage(_, _, _, actor, _) => actor
  }

  /** And what each kind of action needs beside that. */
  predicate MayBeTaken(x: State, m: Message, now: nat) {
    match m
    case OfferMessage(_, _, _, proposer, quoteAmount, validUntil) =>
      && proposer == (if x.offerCount == 0 || x.activeProposer != x.session.buyer then x.session.buyer
                      else x.session.seller)
      && x.offerCount != x.session.maxOffers && quoteAmount >= 1 && now < validUntil <= x.session.expiresAt
    case AcceptMessage(_, _, _, actor, offerHash) =>
      && x.activeHash == Some(offerHash) && now < x.activeValidUntil && actor != x.activeProposer
      && x.activeQuote <= x.buyer.balance && x.activeQuote <= x.buyer.allowance
      && x.session.baseAmount <= x.seller.balance && x.session.baseAmount <= x.seller.allowance
    case CloseMessage(_, _, _, _, reason) => 1 <= reason <= 3
  }

  /** Of any state and any signed action: taken exactly then. */
  lemma TakenIff(x: State, a: SignedAction, now: nat)
    ensures Submit(x, a, now).Ok? <==> NextOfSession(x, a, now) && MayBeTaken(x, a.message, now)
  {
  }

  /** What a taken action leaves: an offer stands alone and is logged, an acceptance settles at the standing
      price and leaves none, a close ends the session; and the sequence is the action's. */
  lemma TakenLeaves(x: State, a: SignedAction, now: nat)
    requires Submit(x, a, now).Ok?
    ensures var x' := Submit(x, a, now).value;
      && x'.session == x.session && x'.buyer == x.buyer && x'.seller == x.seller
      && x'.sequence == a.message.sequence
      && match a.message
         case OfferMessage(_, _, sequence, proposer, quoteAmount, validUntil) =>
           && x'.status.Open? && x'.offerCount == x.offerCount + 1 && x'.settledAt == x.settledAt
           && x'.activeHash == Some(a.digest) && x'.activeProposer == proposer && x'.activeQuote == quoteAmount
           && x'.activeValidUntil == validUntil
           && x'.log == x.log + [Builder.Offer(sequence, proposer, quoteAmount, validUntil, a.digest)]
         case AcceptMessage(_, _, _, _, _) =>
           x'.status.Settled? && x'.settledAt == Some(x.activeQuote) && x'.activeHash.None? && x'.log == x.log
         case CloseMessage(_, _, _, _, _) => x'.status.Closed? && x'.settledAt == x.settledAt && x'.log == x.log
  {
  }
}
