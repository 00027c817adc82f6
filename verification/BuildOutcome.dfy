/** Exactly when the backend builds an observation, which error it gives otherwise, and what it shows,
    said of the run's events and records alone. */
module BuildOutcome {
  import opened Common
  import opened Protocol
  import opened Builder

  // ---------------------------------------------------------------------------------------------
  // The events' offers, in order
  // ---------------------------------------------------------------------------------------------

  /** The offers numbered `sequence`, as they stand in `offers`. */
  function Numbered(offers: seq<Offer>, sequence: nat): seq<Offer> {
    if offers == [] then []
    else (if offers[0].sequence == sequence then [offers[0]] else []) + Numbered(offers[1..], sequence)
  }

  /** The offers numbered `sequence` that the events record, in the events' order. */
  function RecordedAs(events: seq<Event>, sequence: nat): seq<Offer> {
    if events == [] then []
    else
      var rest := RecordedAs(events[1..], sequence);
      if events[0].args.OfferRecorded? && events[0].args.offer.sequence == sequence
      then [events[0].args.offer] + rest else rest
  }

  predicate Ascending(offers: seq<Offer>) {
    forall i, j | 0 <= i < j < |offers| :: offers[i].sequence <= offers[j].sequence
  }

  /** All the offers the events record, by number, and those of one number as the events have them. */
  ghost predicate InOrder(events: seq<Event>, offers: seq<Offer>) {
    Ascending(offers) && forall sequence: nat :: Numbered(offers, sequence) == RecordedAs(events, sequence)
  }

  lemma {:induction false} InsertAscends(o: Offer, offers: seq<Offer>)
    requires Ascending(offers)
    ensures Ascending(Insert(o, offers)) && Insert(o, offers) != []
    ensures Insert(o, offers)[0].sequence == o.sequence
            || (offers != [] && Insert(o, offers)[0].sequence == offers[0].sequence && offers[0].sequence < o.sequence)
  {
    if offers != [] && o.sequence > offers[0].sequence {
      var rest := Insert(o, offers[1..]);
      InsertAscends(o, offers[1..]);
      assert Insert(o, offers) == [offers[0]] + rest;
      forall i | 0 <= i < |rest|
        ensures offers[0].sequence <= rest[i].sequence
      {
        assert rest[0].sequence <= rest[i].sequence;
      }
    }
  }

  /** Those of one number among the first offer alone. */
  function NumberedOne(o: Offer, sequence: nat): seq<Offer> { if o.sequence == sequence then [o] else [] }

  lemma NumberedFirst(o: Offer, rest: seq<Offer>, sequence: nat)
    ensures Numbered([o] + rest, sequence) == NumberedOne(o, sequence) + Numbered(rest, sequence)
  {
    assert ([o] + rest)[1..] == rest;
  }

  lemma {:induction false} InsertNumbers(o: Offer, offers: seq<Offer>, sequence: nat)
    ensures Numbered(Insert(o, offers), sequence) == NumberedOne(o, sequence) + Numbered(offers, sequence)
  {
    if offers == [] || o.sequence <= offers[0].sequence {
      NumberedFirst(o, offers, sequence);
    } else {
      var first, rest := offers[0], offers[1..];
      InsertNumbers(o, rest, sequence);
      NumberedFirst(first, Insert(o, rest), sequence);
      NumberedFirst(first, rest, sequence);
      assert offers == [first] + rest;
      assert NumberedOne(first, sequence) == [] || NumberedOne(o, sequence) == [];
    }
  }

  lemma {:induction false} SortedIsStable(offers: seq<Offer>)
    ensures Ascending(Sorted(offers))
    ensures forall sequence: nat :: Numbered(Sorted(offers), sequence) == Numbered(offers, sequence)
  {
    if offers != [] {
      SortedIsStable(offers[1..]);
      InsertAscends(offers[0], Sorted(offers[1..]));
      forall sequence: nat
        ensures Numbered(Sorted(offers), sequence) == Numbered(offers, sequence)
      {
        InsertNumbers(offers[0], Sorted(offers[1..]), sequence);
      }
    }
  }

  lemma {:induction false} OffersAreRecorded(events: seq<Event>, sequence: nat)
    ensures Numbered(OffersOf(events), sequence) == RecordedAs(events, sequence)
  {
    if events != [] {
      OffersAreRecorded(events[1..], sequence);
      if events[0].args.OfferRecorded? {
        assert ([events[0].args.offer] + OffersOf(events[1..]))[1..] == OffersOf(events[1..]);
      } else {
        assert OffersOf(events) == OffersOf(events[1..]);
      }
    }
  }

  lemma OffersInOrder(events: seq<Event>)
    ensures InOrder(events, Sorted(OffersOf(events)))
  {
    SortedIsStable(OffersOf(events));
    forall sequence: nat
      ensures Numbered(Sorted(OffersOf(events)), sequence) == RecordedAs(events, sequence)
    {
      OffersAreRecorded(events, sequence);
    }
  }

  lemma {:induction false} NumberedHolds(offers: seq<Offer>, sequence: nat)
    ensures Numbered(offers, sequence) != [] ==> exists i :: 0 <= i < |offers| && offers[i].sequence == sequence
  {
    if offers != [] && offers[0].sequence != sequence {
      NumberedHolds(offers[1..], sequence);
      if i :| 0 <= i < |offers[1..]| && offers[1..][i].sequence == sequence {
        assert offers[i + 1].sequence == sequence;
      }
    }
  }

  lemma FirstIsNoLater(a: seq<Offer>, b: seq<Offer>)
    requires Ascending(b) && a != []
    requires forall sequence: nat :: Numbered(a, sequence) == Numbered(b, sequence)
    ensures b != [] && b[0].sequence <= a[0].sequence
  {
    assert Numbered(a, a[0].sequence) != [];
    NumberedHolds(b, a[0].sequence);
  }

  /** There is one such order. */
  lemma {:induction false} OneOrder(a: seq<Offer>, b: seq<Offer>)
    requires Ascending(a) && Ascending(b)
    requires forall sequence: nat :: Numbered(a, sequence) == Numbered(b, sequence)
    ensures a == b
  {
    if a != [] {
      FirstIsNoLater(a, b);
      FirstIsNoLater(b, a);
      assert Numbered(a, a[0].sequence)[0] == a[0] && Numbered(b, a[0].sequence)[0] == b[0];
      forall sequence: nat
        ensures Numbered(a[1..], sequence) == Numbered(b[1..], sequence)
      {
        SameTails(a, b, sequence);
      }
      OneOrder(a[1..], b[1..]);
      assert a == [a[0]] + a[1..] && b == [b[0]] + b[1..];
    } else if b != [] {
      FirstIsNoLater(b, a);
    }
  }

  lemma SameTails(a: seq<Offer>, b: seq<Offer>, sequence: nat)
    requires a != [] && b != [] && a[0] == b[0] && Numbered(a, sequence) == Numbered(b, sequence)
    ensures Numbered(a[1..], sequence) == Numbered(b[1..], sequence)
  {
    var mine := if a[0].sequence == sequence then [a[0]] else [];
    assert Numbered(a, sequence)[|mine|..] == Numbered(a[1..], sequence);
    assert Numbered(b, sequence)[|mine|..] == Numbered(b[1..], sequence);
  }

  lemma OnlyTheSorted(events: seq<Event>, offers: seq<Offer>)
    requires InOrder(events, offers)
    ensures offers == Sorted(OffersOf(events))
  {
    OffersInOrder(events);
    OneOrder(offers, Sorted(OffersOf(events)));
  }

  // ---------------------------------------------------------------------------------------------
  // When an observation is built
  // ---------------------------------------------------------------------------------------------

  predicate AtThreshold(e: Event, threshold: nat) {
    if e.confirmations.Some? then e.confirmations.value >= threshold else threshold == 0
  }

  predicate AllAtThreshold(events: seq<Event>, threshold: nat) {
    forall e | e in events :: AtThreshold(e, threshold)
  }

  predicate Ended(events: seq<Event>) { exists e | e in events :: e.args.TerminalEvent? }

  predicate HasOpened(events: seq<Event>) { exists e | e in events :: e.args.SessionOpened? }

  predicate IsWallet(records: Records, a: Address) { a == records.buyer || a == records.seller }

  predicate ProposersAreParties(events: seq<Event>, records: Records) {
    forall e | e in events && e.args.OfferRecorded? :: IsWallet(records, e.args.offer.proposer)
  }

  /** The buyer acts first, and the last offer's other party after that; no one where its proposer is
      neither wallet. */
  predicate ToAct(offers: seq<Offer>, records: Records, role: Role) {
    if offers == [] then role.Buyer?
    else
      var proposer := offers[|offers| - 1].proposer;
      if role.Buyer? then proposer == records.seller else proposer == records.buyer && proposer != records.seller
  }

  /** The session is open, and nothing in it or signed for it is still undecided. */
  predicate ReadyToShow(events: seq<Event>, threshold: nat, records: Records) {
    AllAtThreshold(events, threshold) && !Ended(events) && HasOpened(events) && records.actionsSettled
  }

  lemma {:induction false} OpeningIff(events: seq<Event>)
    ensures FirstOpening(events).Some? <==> HasOpened(events)
    ensures FirstOpening(events).Some? ==> IsFirstOpening(events, FirstOpening(events).value)
  {
    if events != [] {
      OpeningIff(events[1..]);
      assert forall e | e in events[1..] :: e in events;
      if events[0].args.SessionOpened? {
        assert events[0] in events;
      } else {
        if e :| e in events && e.args.SessionOpened? {
          assert e in events[1..];
        }
        if FirstOpening(events).Some? {
          var i: nat :| i < |events[1..]| && events[1..][i].args == SessionOpened(FirstOpening(events).value)
            && forall j | 0 <= j < i :: !events[1..][j].args.SessionOpened?;
          assert events[i + 1] == events[1..][i];
          forall j | 0 <= j < i + 1
            ensures !events[j].args.SessionOpened?
          {
            if j > 0 {
              assert events[1..][j - 1] == events[j];
            }
          }
        }
      }
    }
  }

  /** The view is the one the first opening event carries. */
  ghost predicate IsFirstOpening(events: seq<Event>, view: SessionView) {
    exists i: nat :: i < |events| && events[i].args == SessionOpened(view)
                     && forall j | 0 <= j < i :: !events[j].args.SessionOpened?
  }

  lemma {:induction false} RecordedOffers(events: seq<Event>, o: Offer)
    ensures o in OffersOf(events) <==> exists e :: e in events && e.args == OfferRecorded(o)
  {
    if events != [] {
      RecordedOffers(events[1..], o);
      if e :| e in events && e.args == OfferRecorded(o) {
        assert e == events[0] || e in events[1..];
      }
      if e :| e in events[1..] && e.args == OfferRecorded(o) {
        assert e in events;
      }
      if o in OffersOf(events) && !(events[0].args == OfferRecorded(o)) {
        assert o in OffersOf(events[1..]);
      }
      if events[0].args == OfferRecorded(o) {
        assert events[0] in events;
      }
    }
  }

  lemma {:induction false} InsertHolds(o: Offer, offers: seq<Offer>, x: Offer)
    ensures x in Insert(o, offers) <==> x == o || x in offers
  {
    if offers != [] && o.sequence > offers[0].sequence {
      InsertHolds(o, offers[1..], x);
    }
  }

  lemma {:induction false} SortedHolds(offers: seq<Offer>, x: Offer)
    ensures x in Sorted(offers) <==> x in offers
  {
    if offers != [] {
      SortedHolds(offers[1..], x);
      InsertHolds(offers[0], Sorted(offers[1..]), x);
    }
  }

  lemma KnownIff(events: seq<Event>, records: Records)
    ensures AllKnown(Sorted(OffersOf(events)), records) <==> ProposersAreParties(events, records)
  {
    var offers := Sorted(OffersOf(events));
    if AllKnown(offers, records) {
      forall e | e in events && e.args.OfferRecorded?
        ensures IsWallet(records, e.args.offer.proposer)
      {
        RecordedOffers(events, e.args.offer);
        SortedHolds(OffersOf(events), e.args.offer);
        assert e.args.offer in offers;
      }
    }
    if ProposersAreParties(events, records) {
      forall i | 0 <= i < |offers|
        ensures records.RoleOf(offers[i].proposer).Some?
      {
        SortedHolds(OffersOf(events), offers[i]);
        RecordedOffers(events, offers[i]);
      }
    }
  }

  lemma ToActIff(offers: seq<Offer>, records: Records, role: Role)
    ensures NextParty(offers, records) == Some(role) <==> ToAct(offers, records, role)
  {
  }

  /** What was confirmed, said of the events one by one. */
  lemma ConfirmedIff(events: seq<Event>, threshold: nat)
    ensures ConfirmedSession(events, threshold) == Err(NotConfirmed) <==> !AllAtThreshold(events, threshold)
    ensures ConfirmedSession(events, threshold) == Err(SessionEnded) <==>
      AllAtThreshold(events, threshold) && Ended(events)
    ensures ConfirmedSession(events, threshold) == Err(SessionNotOpen) <==>
      AllAtThreshold(events, threshold) && !Ended(events) && !HasOpened(events)
    ensures ConfirmedSession(events, threshold).Ok? <==>
      AllAtThreshold(events, threshold) && !Ended(events) && HasOpened(events)
  {
    OpeningIff(events);
    if i :| 0 <= i < |events| && Confirmations(events[i]) < threshold {
      assert events[i] in events;
    }
    if i :| 0 <= i < |events| && events[i].args.TerminalEvent? {
      assert events[i] in events;
    }
  }

  predicate LacksMandate(offers: seq<Offer>, records: Records, role: Role) {
    ToAct(offers, records, role) && role !in records.mandates
  }

  predicate LacksBalances(offers: seq<Offer>, records: Records, role: Role) {
    ToAct(offers, records, role) && role in records.mandates && role !in records.balances
  }

  /** Each error's whole condition: the session's events first, then the signed actions, then the party
      to act and its records, and a proposer that is neither wallet where none of these comes before. */
  predicate Refuses(events: seq<Event>, threshold: nat, records: Records, offers: seq<Offer>, error: BuildError) {
    match error
    case NotConfirmed => !AllAtThreshold(events, threshold)
    case SessionEnded => AllAtThreshold(events, threshold) && Ended(events)
    case SessionNotOpen => AllAtThreshold(events, threshold) && !Ended(events) && !HasOpened(events)
    case ActionUnsettled =>
      AllAtThreshold(events, threshold) && !Ended(events) && HasOpened(events) && !records.actionsSettled
    case MandateMissing =>
      ReadyToShow(events, threshold, records)
      && (LacksMandate(offers, records, Buyer) || LacksMandate(offers, records, Seller))
    case BalancesMissing =>
      ReadyToShow(events, threshold, records)
      && (LacksBalances(offers, records, Buyer) || LacksBalances(offers, records, Seller))
    case UnknownProposer =>
      ReadyToShow(events, threshold, records) && !ProposersAreParties(events, records)
      && !LacksMandate(offers, records, Buyer) && !LacksMandate(offers, records, Seller)
      && !LacksBalances(offers, records, Buyer) && !LacksBalances(offers, records, Seller)
  }

  /** The builder's answer once the session is confirmed, whatever its events. */
  lemma OpenSessionIs(events: seq<Event>, threshold: nat, records: Records, chainTime: nat, offers: seq<Offer>)
    requires ConfirmedSession(events, threshold).Ok? && ConfirmedSession(events, threshold).value.1 == offers
    ensures var built := Build(events, threshold, records, chainTime);
      && (built == Err(ActionUnsettled) <==> !records.actionsSettled)
      && (built == Err(MandateMissing) <==>
            records.actionsSettled && (LacksMandate(offers, records, Buyer) || LacksMandate(offers, records, Seller)))
      && (built == Err(BalancesMissing) <==>
            records.actionsSettled && (LacksBalances(offers, records, Buyer) || LacksBalances(offers, records, Seller)))
      && (built.Ok? ==> AllKnown(offers, records))
      && (built == Err(UnknownProposer) ==> !AllKnown(offers, records))
      && (built.Err? ==> built.error in {ActionUnsettled, MandateMissing, BalancesMissing, UnknownProposer})
  {
    ToActIff(offers, records, Buyer);
    ToActIff(offers, records, Seller);
    if AllKnown(offers, records) {
      PartyIsKnown(records, offers);
    }
  }

  lemma PartyIsKnown(records: Records, offers: seq<Offer>)
    requires AllKnown(offers, records)
    ensures NextParty(offers, records).Some?
  {
  }

  /** Exactly when the builder refuses, and with which error. */
  lemma RefusesIff(events: seq<Event>, threshold: nat, records: Records, chainTime: nat, offers: seq<Offer>,
                   error: BuildError)
    requires InOrder(events, offers)
    ensures Build(events, threshold, records, chainTime) == Err(error)
       <==> Refuses(events, threshold, records, offers, error)
  {
    OnlyTheSorted(events, offers);
    ConfirmedIff(events, threshold);
    KnownIff(events, records);
    if ConfirmedSession(events, threshold).Ok? {
      OpenSessionIs(events, threshold, records, chainTime, offers);
    }
  }

  /** And when it builds an observation. */
  lemma BuildsIff(events: seq<Event>, threshold: nat, records: Records, chainTime: nat, offers: seq<Offer>)
    requires InOrder(events, offers)
    ensures Build(events, threshold, records, chainTime).Ok? <==>
      && AllAtThreshold(events, threshold) && !Ended(events) && HasOpened(events)
      && records.actionsSettled && ProposersAreParties(events, records)
      && (forall role | ToAct(offers, records, role) :: role in records.mandates && role in records.balances)
  {
    OnlyTheSorted(events, offers);
    ConfirmedIff(events, threshold);
    KnownIff(events, records);
    ToActIff(offers, records, Buyer);
    ToActIff(offers, records, Seller);
    if ConfirmedSession(events, threshold).Ok? {
      OpenSessionIs(events, threshold, records, chainTime, offers);
    }
    BothRoles(offers, records);
  }

  lemma BothRoles(offers: seq<Offer>, records: Records)
    ensures (forall role | ToAct(offers, records, role) :: role in records.mandates && role in records.balances)
       <==> (!LacksMandate(offers, records, Buyer) && !LacksMandate(offers, records, Seller)
             && !LacksBalances(offers, records, Buyer) && !LacksBalances(offers, records, Seller))
  {
    if !LacksMandate(offers, records, Buyer) && !LacksMandate(offers, records, Seller)
       && !LacksBalances(offers, records, Buyer) && !LacksBalances(offers, records, Seller) {
      forall role | ToAct(offers, records, role)
        ensures role in records.mandates && role in records.balances
      {
        if role.Buyer? {
        } else {
        }
      }
    }
  }

  // ---------------------------------------------------------------------------------------------
  // What it shows
  // ---------------------------------------------------------------------------------------------

  predicate RoleIs(records: Records, a: Address, role: Role) {
    if role.Seller? then a == records.seller else a == records.buyer && a != records.seller
  }

  /** One offer's entry: replaced by a later one, or standing until its time. */
  predicate ShowsOffer(e: HistoryEntry, o: Offer, records: Records, chainTime: nat, last: bool) {
    && e.sequence == o.sequence && e.kind.OfferKind? && e.actor.Party? && RoleIs(records, o.proposer, e.actor.role)
    && e.quoteAmount == Some(o.quoteAmount) && e.validUntil == Some(o.validUntil) && e.offerHash == Some(o.offerHash)
    && e.status == Some(if !last then Replaced else if chainTime < o.validUntil then Active else Expired)
  }

  ghost predicate ShowsStanding(o: Observation, offers: seq<Offer>, records: Records) {
    if offers == [] || offers[|offers| - 1].validUntil <= o.chainTime then o.active.None?
    else
      var last := offers[|offers| - 1];
      && o.active.Some? && RoleIs(records, last.proposer, o.active.value.proposer)
      && o.active.value.offerHash == last.offerHash && o.active.value.quoteAmount == last.quoteAmount
      && o.active.value.validUntil == last.validUntil && o.active.value.sequence == last.sequence
  }

  ghost function OwnAmong(offers: seq<Offer>, records: Records, role: Role): set<nat> {
    set i | 0 <= i < |offers| && RoleIs(records, offers[i].proposer, role)
  }

  /** The observation, field by field, of the events' offers and the records. */
  ghost predicate Shows(events: seq<Event>, offers: seq<Offer>, records: Records, chainTime: nat, o: Observation) {
    && ToAct(offers, records, o.role)
    && o.myAddress == (if o.role.Buyer? then records.buyer else records.seller)
    && IsFirstOpening(events, o.session) && o.chainTime == chainTime
    && o.expectedSequence == (if offers == [] then 1 else offers[|offers| - 1].sequence + 1)
    && (var share: int := if o.role.Buyer? then (o.session.maxOffers + 1) / 2 else o.session.maxOffers / 2;
        var own: int := |OwnAmong(offers, records, o.role)|;
        o.offersRemaining == if share >= own then share - own else 0)
    && |o.history| == |offers|
    && (forall i | 0 <= i < |offers| :: ShowsOffer(o.history[i], offers[i], records, chainTime, i == |offers| - 1))
    && ShowsStanding(o, offers, records)
    && o.role in records.mandates && o.mandate == records.mandates[o.role]
    && o.role in records.balances && o.balances == records.balances[o.role]
  }

  ghost function Shifted(a: set<nat>): set<nat> { set i | i in a :: i + 1 }

  lemma OwnAfterFirst(offers: seq<Offer>, records: Records, role: Role, i: nat)
    requires offers != []
    ensures i in OwnAmong(offers, records, role) <==>
      if i == 0 then RoleIs(records, offers[0].proposer, role) else i in Shifted(OwnAmong(offers[1..], records, role))
  {
    if 0 < i < |offers| {
      assert offers[1..][i - 1] == offers[i];
      var rest := OwnAmong(offers[1..], records, role);
      assert i - 1 in rest ==> (i - 1) + 1 in Shifted(rest);
    }
  }

  lemma OwnSplits(offers: seq<Offer>, records: Records, role: Role)
    requires offers != []
    ensures |OwnAmong(offers, records, role)|
         == |Shifted(OwnAmong(offers[1..], records, role))| + if RoleIs(records, offers[0].proposer, role) then 1 else 0
  {
    var shifted := Shifted(OwnAmong(offers[1..], records, role));
    forall i: nat
      ensures i in OwnAmong(offers, records, role) <==>
        if i == 0 then RoleIs(records, offers[0].proposer, role) else i in shifted
    {
      OwnAfterFirst(offers, records, role, i);
    }
    if RoleIs(records, offers[0].proposer, role) {
      assert OwnAmong(offers, records, role) == shifted + {0};
    } else {
      assert OwnAmong(offers, records, role) == shifted;
    }
  }

  lemma {:induction false} OwnCounted(offers: seq<Offer>, records: Records, role: Role)
    ensures OwnOffers(offers, records, role) == |OwnAmong(offers, records, role)|
  {
    if offers == [] {
      assert OwnAmong(offers, records, role) == {};
    } else {
      OwnCounted(offers[1..], records, role);
      OwnSplits(offers, records, role);
      SameSize(OwnAmong(offers[1..], records, role));
    }
  }

  lemma {:induction false} SameSize(a: set<nat>)
    ensures |Shifted(a)| == |a|
  {
    if a != {} {
      var x :| x in a;
      assert x + 1 in Shifted(a);
      forall y | y in Shifted(a) - {x + 1}
        ensures y in Shifted(a - {x})
      {
        var i :| i in a && y == i + 1;
        assert i in a - {x};
      }
      assert Shifted(a) - {x + 1} == Shifted(a - {x});
      SameSize(a - {x});
    }
  }

  lemma BuiltHistory(offers: seq<Offer>, records: Records, chainTime: nat)
    requires AllKnown(offers, records)
    ensures forall i | 0 <= i < |offers| ::
      ShowsOffer(HistoryOf(offers, records, chainTime)[i], offers[i], records, chainTime, i == |offers| - 1)
  {
    forall i | 0 <= i < |offers|
      ensures ShowsOffer(HistoryOf(offers, records, chainTime)[i], offers[i], records, chainTime, i == |offers| - 1)
    {
      assert records.RoleOf(offers[i].proposer).Some?;
    }
  }

  lemma AssembledShows(events: seq<Event>, session: SessionView, offers: seq<Offer>, records: Records, role: Role,
                       chainTime: nat)
    requires IsFirstOpening(events, session) && NextParty(offers, records) == Some(role) && AllKnown(offers, records)
    requires role in records.mandates && role in records.balances
    ensures Shows(events, offers, records, chainTime,
                  Assembled(offers, session, records, role, records.mandates[role], records.balances[role], chainTime))
  {
    ToActIff(offers, records, role);
    OwnCounted(offers, records, role);
    BuiltHistory(offers, records, chainTime);
  }

  /** Whatever the builder builds shows exactly the events and the records of the party to act. */
  lemma BuiltShows(events: seq<Event>, threshold: nat, records: Records, chainTime: nat, offers: seq<Offer>)
    requires InOrder(events, offers) && Build(events, threshold, records, chainTime).Ok?
    ensures Shows(events, offers, records, chainTime, Build(events, threshold, records, chainTime).value)
  {
    OnlyTheSorted(events, offers);
    OpeningIff(events);
    AssembledShows(events, FirstOpening(events).value, offers, records, NextParty(offers, records).value, chainTime);
  }
}
