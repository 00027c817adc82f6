/** The public side of a negotiation: messages and digests, the session, and one observation. */
module Protocol {
  import opened Common

  type Address = nat

  datatype Role = Buyer | Seller

  function Counterparty(role: Role): Role {
    if role.Buyer? then Seller else Buyer
  }

  datatype SigningDomain = SigningDomain(chainId: nat, contract: Address)

  datatype Message =
    | OfferMessage(sessionId: nat, configHash: nat, sequence: nat, proposer: Address, quoteAmount: nat, validUntil: nat)
    | AcceptMessage(sessionId: nat, configHash: nat, sequence: nat, actor: Address, offerHash: Digest)
    | CloseMessage(sessionId: nat, configHash: nat, sequence: nat, actor: Address, reason: nat)

  /** 32 bytes. A digest is identified with what was hashed, so two are equal only for one message
      under one domain; any other bytes are the digest of nothing. */
  datatype Digest = HashOf(domain: SigningDomain, message: Message) | Bytes32(raw: nat)

  /** The terms a session was opened with. */
  datatype Session = Session(chainId: nat, exchange: Address, baseToken: Address, quoteToken: Address,
                             sessionId: nat, configHash: nat, buyer: Address, seller: Address,
                             baseAmount: nat, expiresAt: nat, maxOffers: nat, offerLifetime: nat)
  {
    function Domain(): SigningDomain { SigningDomain(chainId, exchange) }

    function Party(role: Role): Address { if role.Buyer? then buyer else seller }

    /** What `createSession` and provisioning admit. */
    predicate Admissible() {
      buyer != seller && 0 < baseAmount && expiresAt <= UINT64_MAX && 1 <= maxOffers <= 32 && 0 < offerLifetime
    }
  }

  datatype Mandate = Mandate(reservation: nat, floor: nat)

  datatype Balances = Balances(base: nat, quote: nat)

  datatype SessionView = SessionView(sessionId: nat, configHash: nat, chainId: nat, exchange: Address,
                                     baseToken: Address, quoteToken: Address, baseAmount: nat,
                                     expiresAt: nat, maxOffers: nat)

  function ViewOf(s: Session): SessionView {
    SessionView(s.sessionId, s.configHash, s.chainId, s.exchange, s.baseToken, s.quoteToken,
                s.baseAmount, s.expiresAt, s.maxOffers)
  }

  datatype Actor = Party(role: Role) | Operator | Anyone

  datatype Kind = OfferKind | OtherKind

  datatype OfferStatus = Active | Expired | Replaced

  datatype ActiveOffer = ActiveOffer(offerHash: Digest, proposer: Role, quoteAmount: nat, validUntil: nat,
                                     sequence: nat)

  datatype HistoryEntry = HistoryEntry(sequence: nat, actor: Actor, kind: Kind, quoteAmount: Option<nat>,
                                       validUntil: Option<nat>, offerHash: Option<Digest>, status: Option<OfferStatus>)

  datatype Observation = Observation(
    role: Role, myAddress: Address, session: SessionView, chainTime: nat, expectedSequence: nat,
    offersRemaining: nat, active: Option<ActiveOffer>, history: seq<HistoryEntry>,
    balances: Balances, mandate: Mandate)

  predicate IsOffer(e: HistoryEntry) { e.kind.OfferKind? }

  predicate IsOwnOffer(e: HistoryEntry, role: Role) { e.kind.OfferKind? && e.actor == Party(role) }

  function OffersRecorded(history: seq<HistoryEntry>): nat {
    if history == [] then 0 else (if IsOffer(history[0]) then 1 else 0) + OffersRecorded(history[1..])
  }

  function OwnOffersRecorded(history: seq<HistoryEntry>, role: Role): nat {
    if history == [] then 0
    else (if IsOwnOffer(history[0], role) then 1 else 0) + OwnOffersRecorded(history[1..], role)
  }

  /** Read off the last offer entry, the buyer where there is none; no one when it has an actor that
      is neither party. */
  function NextProposer(history: seq<HistoryEntry>): Option<Role> {
    if history == [] then Some(Buyer)
    else
      var last := history[|history| - 1];
      if !IsOffer(last) then NextProposer(history[..|history| - 1])
      else if last.actor.Party? then Some(Counterparty(last.actor.role)) else None
  }

  /** How many of `maxOffers` offers, alternating from the buyer, are this role's. */
  function Opportunities(role: Role, maxOffers: nat): nat {
    if role.Buyer? then (maxOffers + 1) / 2 else maxOffers / 2
  }
}
