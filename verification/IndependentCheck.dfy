/** Two services derive the same facts separately. The agent's check, which never sees the chain,
    passes exactly the observations the backend's builder makes from well-formed histories. */
module IndependentCheck {
  import opened Common
  import opened Protocol
  import opened Consistency
  import opened Builder
  import opened BuildOutcome

  /** What the contract's events can say: at most `maxOffers` offers, the sequence and proposer of
      each fixed by its position, its digest by its fields. */
  ghost predicate WellFormed(offers: seq<Offer>, s: Session) {
    |offers| <= s.maxOffers && forall i | 0 <= i < |offers| :: WellFormedOffer(offers[i], i, s)
  }

  ghost predicate WellFormedOffer(o: Offer, i: nat, s: Session) {
    o.sequence == i + 1 && o.proposer == s.Party(Turn(i)) &&
    DigestMatches(s, i + 1, o.proposer, o.quoteAmount, o.validUntil, o.offerHash)
  }

  /** The run's wallets are the session's parties. */
  predicate SameParties(records: Records, s: Session) {
    records.buyer == s.buyer && records.seller == s.seller && s.buyer != s.seller
  }

  lemma {:induction false} OwnCountsAgree(offers: seq<Offer>, h: seq<HistoryEntry>, records: Records, role: Role)
    requires |h| == |offers|
    requires forall i | 0 <= i < |h| :: IsOwnOffer(h[i], role) <==> records.RoleOf(offers[i].proposer) == Some(role)
    ensures OwnOffersRecorded(h, role) == OwnOffers(offers, records, role)
  {
    if h != [] {
      OwnCountsAgree(offers[1..], h[1..], records, role);
    }
  }

  lemma ProposersKnown(offers: seq<Offer>, s: Session, records: Records)
    requires WellFormed(offers, s) && SameParties(records, s)
    ensures forall i | 0 <= i < |offers| :: records.RoleOf(offers[i].proposer) == Some(Turn(i))
  {
    forall i | 0 <= i < |offers|
      ensures records.RoleOf(offers[i].proposer) == Some(Turn(i))
    {
      assert WellFormedOffer(offers[i], i, s);
    }
  }

  lemma AssembledEntries(offers: seq<Offer>, s: Session, records: Records, chainTime: nat, i: nat)
    requires WellFormed(offers, s) && SameParties(records, s) && i < |offers|
    ensures EntryProblems(i, EntryOf(offers[i], records, chainTime, i == |offers| - 1), |offers|, chainTime, s) == {}
  {
    ProposersKnown(offers, s, records);
    assert WellFormedOffer(offers[i], i, s);
  }

  lemma AssembledHistory(offers: seq<Offer>, s: Session, records: Records, party: Role, mandate: Mandate,
                         balances: Balances, chainTime: nat)
    requires WellFormed(offers, s) && SameParties(records, s)
    ensures var o := Assembled(offers, ViewOf(s), records, party, mandate, balances, chainTime);
      HistoryProblems(o, |o.history|, s) == {}
  {
    var o := Assembled(offers, ViewOf(s), records, party, mandate, balances, chainTime);
    forall i | 0 <= i < |o.history|
      ensures EntryProblems(i, o.history[i], |o.history|, o.chainTime, s) == {}
    {
      AssembledEntries(offers, s, records, chainTime, i);
    }
    NoHistoryProblemsIff(o, |o.history|, s);
  }

  lemma AssembledCounts(offers: seq<Offer>, s: Session, records: Records, party: Role, mandate: Mandate,
                        balances: Balances, chainTime: nat)
    requires WellFormed(offers, s) && SameParties(records, s)
    ensures var o := Assembled(offers, ViewOf(s), records, party, mandate, balances, chainTime);
      && o.expectedSequence == |o.history| + 1
      && OwnOffersRecorded(o.history, party) == OwnOffers(offers, records, party)
      && ActiveProblems(o) == {}
  {
    var o := Assembled(offers, ViewOf(s), records, party, mandate, balances, chainTime);
    ProposersKnown(offers, s, records);
    OwnCountsAgree(offers, o.history, records, party);
    if offers != [] {
      assert WellFormedOffer(offers[|offers| - 1], |offers| - 1, s);
    }
  }

  lemma AssembledTurn(offers: seq<Offer>, s: Session, records: Records, chainTime: nat)
    requires WellFormed(offers, s) && SameParties(records, s)
    ensures NextProposer(HistoryOf(offers, records, chainTime)) == NextParty(offers, records) == Some(Turn(|offers|))
  {
    ProposersKnown(offers, s, records);
  }

  /** Every observation assembled from a well-formed history passes the check, whichever party it
      is assembled for, and both services agree whose turn it is. */
  lemma AssembledIsConsistent(offers: seq<Offer>, s: Session, records: Records, party: Role, mandate: Mandate,
                              balances: Balances, chainTime: nat)
    requires WellFormed(offers, s) && SameParties(records, s)
    ensures var o := Assembled(offers, ViewOf(s), records, party, mandate, balances, chainTime);
      Contradictions(o, s) == {} && NextProposer(o.history) == NextParty(offers, records) == Some(Turn(|offers|))
  {
    AssembledHistory(offers, s, records, party, mandate, balances, chainTime);
    AssembledCounts(offers, s, records, party, mandate, balances, chainTime);
    AssembledTurn(offers, s, records, chainTime);
  }

  /** The observation is what the builder assembles from these offers, its address aside. */
  ghost predicate AssembledFrom(offers: seq<Offer>, o: Observation, s: Session, records: Records) {
    && WellFormed(offers, s)
    && o == Assembled(offers, ViewOf(s), records, o.role, o.mandate, o.balances, o.chainTime).(myAddress := o.myAddress)
  }

  /** The history of an observation, read back as the events it was built from. */
  function Recovered(o: Observation, s: Session): seq<Offer>
    requires forall i | 0 <= i < |o.history| ::
      o.history[i].quoteAmount.Some? && o.history[i].validUntil.Some? && o.history[i].offerHash.Some?
  {
    seq(|o.history|, i requires 0 <= i < |o.history| =>
      Offer(o.history[i].sequence, s.Party(Turn(i)), o.history[i].quoteAmount.value,
            o.history[i].validUntil.value, o.history[i].offerHash.value))
  }

  lemma NoEntryProblems(o: Observation, s: Session)
    requires Contradictions(o, s) == {} && o.session == ViewOf(s)
    ensures |o.history| <= s.maxOffers
    ensures forall i | 0 <= i < |o.history| :: EntryProblems(i, o.history[i], |o.history|, o.chainTime, s) == {}
    ensures o.expectedSequence == |o.history| + 1 && ActiveProblems(o) == {}
  {
    NoHistoryProblemsIff(o, |o.history|, s);
    assert HistoryTooLong !in Contradictions(o, s);
    assert ExpectedSequenceWrong !in Contradictions(o, s);
    assert RemainingWrong !in Contradictions(o, s);
  }

  /** A history without problems is the one the builder makes of the offers it stands for. */
  lemma RecoveredHistory(o: Observation, s: Session, records: Records) returns (offers: seq<Offer>)
    requires Contradictions(o, s) == {} && o.session == ViewOf(s) && SameParties(records, s)
    ensures WellFormed(offers, s) && HistoryOf(offers, records, o.chainTime) == o.history
  {
    NoEntryProblems(o, s);
    forall i | 0 <= i < |o.history|
      ensures o.history[i].quoteAmount.Some? && o.history[i].validUntil.Some? && o.history[i].offerHash.Some?
    {
      EntryIsWellFormed(o, s, i);
    }
    offers := Recovered(o, s);
    forall i | 0 <= i < |offers|
      ensures WellFormedOffer(offers[i], i, s)
    {
      EntryIsWellFormed(o, s, i);
    }
    ProposersKnown(offers, s, records);
    forall i | 0 <= i < |o.history|
      ensures HistoryOf(offers, records, o.chainTime)[i] == o.history[i]
    {
      EntryIsWellFormed(o, s, i);
    }
  }

  lemma ConsistentIsAssembled(o: Observation, s: Session, records: Records)
    requires Contradictions(o, s) == {} && o.session == ViewOf(s) && SameParties(records, s)
    ensures exists offers :: AssembledFrom(offers, o, s, records)
  {
    var offers := RecoveredHistory(o, s, records);
    NoEntryProblems(o, s);
    ProposersKnown(offers, s, records);
    OwnCountsAgree(offers, o.history, records, o.role);
    assert RemainingWrong !in Contradictions(o, s);
    ActiveIsAssembled(o, s, records, offers);
    assert AssembledFrom(offers, o, s, records);
  }

  lemma EntryIsWellFormed(o: Observation, s: Session, i: nat)
    requires i < |o.history| && EntryProblems(i, o.history[i], |o.history|, o.chainTime, s) == {}
    ensures var e := o.history[i];
      && e.quoteAmount.Some? && e.validUntil.Some? && e.offerHash.Some?
      && WellFormedOffer(Offer(e.sequence, s.Party(Turn(i)), e.quoteAmount.value, e.validUntil.value,
                               e.offerHash.value), i, s)
      && e == HistoryEntry(i + 1, Party(Turn(i)), OfferKind, e.quoteAmount, e.validUntil, e.offerHash,
                           Some(StatusOf(e.validUntil.value, o.chainTime, i == |o.history| - 1)))
  {
    var e := o.history[i];
    assert EntrySequence(i) !in EntryProblems(i, e, |o.history|, o.chainTime, s);
    assert EntryKind(i) !in EntryProblems(i, e, |o.history|, o.chainTime, s);
    assert EntryActor(i) !in EntryProblems(i, e, |o.history|, o.chainTime, s);
    assert EntryFields(i) !in EntryProblems(i, e, |o.history|, o.chainTime, s);
    assert EntryDigest(i) !in EntryProblems(i, e, |o.history|, o.chainTime, s);
    assert EntryStatus(i) !in EntryProblems(i, e, |o.history|, o.chainTime, s);
  }

  lemma ActiveIsAssembled(o: Observation, s: Session, records: Records, offers: seq<Offer>)
    requires ActiveOfferWrong !in ActiveProblems(o) && |offers| == |o.history|
    requires offers != [] ==>
      o.history[|offers| - 1] == EntryOf(offers[|offers| - 1], records, o.chainTime, true)
    ensures o.active == ActiveOfferOf(offers, records, o.chainTime)
  {
  }

  /** The check passes an observation of the approved session exactly when it is what the builder
      assembles from some well-formed history. */
  lemma CheckPassesIffAssembled(o: Observation, s: Session, records: Records)
    requires o.session == ViewOf(s) && SameParties(records, s)
    ensures Contradictions(o, s) == {} <==> exists offers :: AssembledFrom(offers, o, s, records)
  {
    if Contradictions(o, s) == {} {
      ConsistentIsAssembled(o, s, records);
    }
    if offers :| AssembledFrom(offers, o, s, records) {
      AssembledIsConsistent(offers, s, records, o.role, o.mandate, o.balances, o.chainTime);
      var made := Assembled(offers, ViewOf(s), records, o.role, o.mandate, o.balances, o.chainTime);
      MyAddressIsNotChecked(made, o.myAddress, s, |made.history|);
    }
  }

  lemma {:induction false} MyAddressIsNotChecked(o: Observation, a: Address, s: Session, n: nat)
    requires n <= |o.history|
    ensures HistoryProblems(o.(myAddress := a), n, s) == HistoryProblems(o, n, s)
    ensures ActiveProblems(o.(myAddress := a)) == ActiveProblems(o)
  {
    if n > 0 {
      MyAddressIsNotChecked(o, a, s, n - 1);
    }
  }

  /** What the builder returns once the session is confirmed and the party to act is known. */
  lemma BuildsAssembled(events: seq<Event>, threshold: nat, records: Records, chainTime: nat, party: Role)
    requires ConfirmedSession(events, threshold).Ok? && FirstOpening(events).Some?
    requires NextParty(Sorted(OffersOf(events)), records) == Some(party) && AllKnown(Sorted(OffersOf(events)), records)
    requires records.actionsSettled && party in records.mandates && party in records.balances
    ensures Build(events, threshold, records, chainTime)
            == Ok(Assembled(Sorted(OffersOf(events)), FirstOpening(events).value, records, party,
                            records.mandates[party], records.balances[party], chainTime))
  {
  }

  lemma PartiesKnown(offers: seq<Offer>, s: Session, records: Records)
    requires WellFormed(offers, s) && SameParties(records, s)
    ensures AllKnown(offers, records) && NextParty(offers, records) == Some(Turn(|offers|))
    ensures forall role :: records.AddressOf(role) == s.Party(role)
  {
    ProposersKnown(offers, s, records);
  }

  lemma OneFirstOpening(events: seq<Event>, view: SessionView)
    requires IsFirstOpening(events, view)
    ensures HasOpened(events) && FirstOpening(events) == Some(view)
  {
    var i: nat :| i < |events| && events[i].args == SessionOpened(view)
      && forall j | 0 <= j < i :: !events[j].args.SessionOpened?;
    assert events[i] in events;
    OpeningIff(events);
    var k: nat :| k < |events| && events[k].args == SessionOpened(FirstOpening(events).value)
      && forall j | 0 <= j < k :: !events[j].args.SessionOpened?;
    assert i == k;
  }

  /** From the run's events, those of a well-formed history of the approved session: the builder builds
      exactly when each is at the threshold, none ends the session and no signed action is unsettled, and
      then an observation the agent finds no contradiction in, for the party the agent itself names. */
  lemma BuiltIsConsistent(events: seq<Event>, offers: seq<Offer>, threshold: nat, records: Records, chainTime: nat,
                          s: Session)
    requires IsFirstOpening(events, ViewOf(s)) && InOrder(events, offers)
    requires WellFormed(offers, s) && SameParties(records, s)
    requires records.mandates.Keys == records.balances.Keys == {Buyer, Seller}
    ensures var built := Build(events, threshold, records, chainTime);
      && (built.Ok? <==> AllAtThreshold(events, threshold) && !Ended(events) && records.actionsSettled)
      && (built.Ok? ==>
            && Contradictions(built.value, s) == {}
            && NextProposer(built.value.history) == Some(built.value.role)
            && built.value.myAddress == s.Party(built.value.role)
            && built.value.session == ViewOf(s))
  {
    var party := Turn(|offers|);
    OnlyTheSorted(events, offers);
    OneFirstOpening(events, ViewOf(s));
    PartiesKnown(offers, s, records);
    KnownIff(events, records);
    BuildsIff(events, threshold, records, chainTime, offers);
    if AllAtThreshold(events, threshold) && !Ended(events) && records.actionsSettled {
      ConfirmedIff(events, threshold);
      BuildsAssembled(events, threshold, records, chainTime, party);
      AssembledIsConsistent(offers, s, records, party, records.mandates[party], records.balances[party], chainTime);
    }
  }
}
