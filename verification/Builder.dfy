/** What the backend tells the next party to act, assembled from events and records. */
module Builder {
  import opened Common
  import opened Protocol

  /** The arguments of one `OfferRecorded` event. */
  datatype Offer = Offer(sequence: nat, proposer: Address, quoteAmount: nat, validUntil: nat, offerHash: Digest)

  datatype EventArgs =
    | SessionOpened(session: SessionView)
    | OfferRecorded(offer: Offer)
    | TerminalEvent

  /** A canonical event of the run; it may not have been given its confirmations yet. */
  datatype Event = Event(args: EventArgs, confirmations: Option<nat>)

  datatype BuildError =
    | NotConfirmed | SessionEnded | SessionNotOpen | ActionUnsettled
    | UnknownProposer | MandateMissing | BalancesMissing

  /** What the builder reads beside the events: the two wallets, whether every signed action is
      confirmed or reverted, the mandates and the post-setup balances. */
  datatype Records = Records(buyer: Address, seller: Address, actionsSettled: bool,
                             mandates: map<Role, Mandate>, balances: map<Role, Balances>)
  {
    function AddressOf(role: Role): Address { if role.Buyer? then buyer else seller }

    function RoleOf(a: Address): Option<Role> {
      if a == seller then Some(Seller) else if a == buyer then Some(Buyer) else None
    }
  }

  function OffersOf(events: seq<Event>): seq<Offer> {
    if events == [] then []
    else (if events[0].args.OfferRecorded? then [events[0].args.offer] else []) + OffersOf(events[1..])
  }

  function Insert(o: Offer, sorted: seq<Offer>): seq<Offer> {
    if sorted == [] || o.sequence <= sorted[0].sequence then [o] + sorted
    else [sorted[0]] + Insert(o, sorted[1..])
  }

  /** Stable, by sequence. */
  function Sorted(offers: seq<Offer>): seq<Offer> {
    if offers == [] then [] else Insert(offers[0], Sorted(offers[1..]))
  }

  function FirstOpening(events: seq<Event>): Option<SessionView> {
    if events == [] then None
    else if events[0].args.SessionOpened? then Some(events[0].args.session)
    else FirstOpening(events[1..])
  }

  function Confirmations(e: Event): nat { if e.confirmations.Some? then e.confirmations.value else 0 }

  /** Refused while any event has fewer confirmations than `threshold`, after an event that ends the
      session and before one that opens it; otherwise what that one says, and the offers by sequence. */
  function ConfirmedSession(events: seq<Event>, threshold: nat): Result<(SessionView, seq<Offer>), BuildError> {
    if exists i :: 0 <= i < |events| && Confirmations(events[i]) < threshold then Err(NotConfirmed)
    else if exists i :: 0 <= i < |events| && events[i].args.TerminalEvent? then Err(SessionEnded)
    else if FirstOpening(events).None? then Err(SessionNotOpen)
    else Ok((FirstOpening(events).value, Sorted(OffersOf(events))))
  }

  function NextParty(offers: seq<Offer>, records: Records): Option<Role> {
    if offers == [] then Some(Buyer)
    else
      var proposer := records.RoleOf(offers[|offers| - 1].proposer);
      if proposer.None? then None else Some(Counterparty(proposer.value))
  }

  function ExpectedSequence(offers: seq<Offer>): nat {
    if offers == [] then 1 else offers[|offers| - 1].sequence + 1
  }

  function OwnOffers(offers: seq<Offer>, records: Records, party: Role): nat {
    if offers == [] then 0
    else (if records.RoleOf(offers[0].proposer) == Some(party) then 1 else 0) + OwnOffers(offers[1..], records, party)
  }

  function RoleOrBuyer(records: Records, a: Address): Role {
    if records.RoleOf(a).Some? then records.RoleOf(a).value else Buyer
  }

  /** What an acceptance could name at `chainTime`. */
  function ActiveOfferOf(offers: seq<Offer>, records: Records, chainTime: nat): Option<ActiveOffer> {
    if offers == [] || offers[|offers| - 1].validUntil <= chainTime then None
    else
      var o := offers[|offers| - 1];
      Some(ActiveOffer(o.offerHash, RoleOrBuyer(records, o.proposer), o.quoteAmount, o.validUntil, o.sequence))
  }

  function EntryOf(o: Offer, records: Records, chainTime: nat, last: bool): HistoryEntry {
    HistoryEntry(o.sequence, Party(RoleOrBuyer(records, o.proposer)), OfferKind,
                 Some(o.quoteAmount), Some(o.validUntil), Some(o.offerHash),
                 Some(if !last then Replaced else if o.validUntil > chainTime then Active else Expired))
  }

  function HistoryOf(offers: seq<Offer>, records: Records, chainTime: nat): (h: seq<HistoryEntry>)
    ensures |h| == |offers|
  {
    seq(|offers|, i requires 0 <= i < |offers| => EntryOf(offers[i], records, chainTime, i == |offers| - 1))
  }

  /** The history as it is built, entry by entry. */
  method BuildHistory(offers: seq<Offer>, records: Records, chainTime: nat) returns (entries: seq<HistoryEntry>)
    ensures entries == HistoryOf(offers, records, chainTime)
  {
    entries := [];
    for i := 0 to |offers|
      invariant |entries| == i
      invariant forall j | 0 <= j < i :: entries[j] == EntryOf(offers[j], records, chainTime, j == |offers| - 1)
    {
      var last := i == |offers| - 1;
      var status := if !last then Replaced else if offers[i].validUntil > chainTime then Active else Expired;
      entries := entries + [HistoryEntry(offers[i].sequence, Party(RoleOrBuyer(records, offers[i].proposer)), OfferKind,
                                         Some(offers[i].quoteAmount), Some(offers[i].validUntil),
                                         Some(offers[i].offerHash), Some(status))];
    }
  }

  predicate AllKnown(offers: seq<Offer>, records: Records) {
    forall i | 0 <= i < |offers| :: records.RoleOf(offers[i].proposer).Some?
  }

  function Assembled(offers: seq<Offer>, session: SessionView, records: Records, party: Role, mandate: Mandate,
                     balances: Balances, chainTime: nat): Observation
  {
    Observation(party, records.AddressOf(party), session, chainTime, ExpectedSequence(offers),
                Max(Opportunities(party, session.maxOffers) - OwnOffers(offers, records, party), 0),
                ActiveOfferOf(offers, records, chainTime), HistoryOf(offers, records, chainTime), balances, mandate)
  }

  function Build(events: seq<Event>, threshold: nat, records: Records, chainTime: nat)
    : Result<Observation, BuildError>
  {
    match ConfirmedSession(events, threshold)
    case Err(e) => Err(e)
    case Ok((session, offers)) =>
      if !records.actionsSettled then Err(ActionUnsettled)
      else if NextParty(offers, records).None? then Err(UnknownProposer)
      else
        var party := NextParty(offers, records).value;
        if party !in records.mandates then Err(MandateMissing)
        else if party !in records.balances then Err(BalancesMissing)
        else if !AllKnown(offers, records) then Err(UnknownProposer)
        else Ok(Assembled(offers, session, records, party, records.mandates[party], records.balances[party], chainTime))
  }
}
