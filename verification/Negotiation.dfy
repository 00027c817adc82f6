/** The whole path of a turn: builder, agent's check, validator, signer, contract, next turn. */
module Negotiation {
  import opened Common
  import opened Protocol
  import opened Consistency
  import opened Builder
  import opened BuildOutcome
  import opened IndependentCheck
  import opened MandateValidation
  import opened Signing
  import Exchange

  /** One party's private and funded side of a run. */
  datatype Side = Side(mandate: Mandate, balances: Balances, allowance: nat)

  /** One run's fixed facts: the approved session and, of each party, its mandate, its post-setup
      balances and its allowance. */
  datatype Setting = Setting(session: Session, buyer: Side, seller: Side)
  {
    function Of(role: Role): Side { if role.Buyer? then buyer else seller }

    function RunRecords(): Records {
      Records(session.buyer, session.seller, true, map[Buyer := buyer.mandate, Seller := seller.mandate],
              map[Buyer := buyer.balances, Seller := seller.balances])
    }

    predicate Within(role: Role, price: nat) {
      WithinMandate(role, Of(role).mandate, Of(role).balances, session.baseAmount, price)
    }

    function PurseOf(role: Role): Exchange.Purse {
      Exchange.Purse(if role.Buyer? then buyer.balances.quote else seller.balances.base, Of(role).allowance)
    }
  }

  /** The session's events as the indexer has them, each at `depth` confirmations. */
  function EventsOf(x: Exchange.State, depth: nat): seq<Event> {
    [Event(SessionOpened(ViewOf(x.session)), Some(depth))]
    + seq(|x.log|, i requires 0 <= i < |x.log| => Event(OfferRecorded(x.log[i]), Some(depth)))
  }

  /** What the party to act is shown. */
  function Observed(g: Setting, x: Exchange.State, depth: nat, chainTime: nat): Result<Observation, BuildError> {
    Build(EventsOf(x, depth), depth, g.RunRecords(), chainTime)
  }

  /** What the agent of the party to act signs for a response, when it signs anything: the
      observation built, checked, the response validated and the message signed. */
  function Signed(g: Setting, x: Exchange.State, depth: nat, r: Response, chainTime: nat): Option<SignedAction> {
    match Observed(g, x, depth, chainTime)
    case Err(_) => None
    case Ok(o) =>
      if Contradictions(o, g.session) != {} then None
      else match Validate(r, o)
        case Refused(_) => None
        case Accepted(d) =>
          match SignDecision(d, Some(g.session), o.expectedSequence, o.chainTime, o.role, o.myAddress)
          case Err(_) => None
          case Ok(a) => Some(a)
  }

  // ---------------------------------------------------------------------------------------------
  // What every reachable session satisfies
  // ---------------------------------------------------------------------------------------------

  /** The log is a well-formed history, each offer within its own proposer's mandate and expiring no
      later than the session; the contract's fields are the last offer's. */
  ghost predicate Inv(g: Setting, x: Exchange.State) {
    && g.session.Admissible()
    && x.session == g.session
    && x.buyer == g.PurseOf(Buyer) && x.seller == g.PurseOf(Seller)
    && WellFormed(x.log, g.session)
    && (forall i | 0 <= i < |x.log| ::
          1 <= x.log[i].quoteAmount && x.log[i].validUntil <= g.session.expiresAt
          && g.Within(Turn(i), x.log[i].quoteAmount))
    && x.offerCount == |x.log|
    && (x.status.Open? ==> x.sequence == |x.log| && ActiveIsLast(x))
    && (x.status.Settled? <==> x.settledAt.Some?)
    && (x.settledAt.Some? ==>
          1 <= x.settledAt.value && g.Within(Buyer, x.settledAt.value) && g.Within(Seller, x.settledAt.value))
  }

  ghost predicate ActiveIsLast(x: Exchange.State) {
    if x.log == [] then x.activeHash.None?
    else
      var last := x.log[|x.log| - 1];
      x.activeHash == Some(last.offerHash) && x.activeProposer == last.proposer
      && x.activeQuote == last.quoteAmount && x.activeValidUntil == last.validUntil
  }

  lemma {:induction false} SortedIsItself(offers: seq<Offer>)
    requires forall i, j | 0 <= i < j < |offers| :: offers[i].sequence <= offers[j].sequence
    ensures Sorted(offers) == offers
  {
    if offers != [] {
      SortedIsItself(offers[1..]);
      assert offers == [offers[0]] + offers[1..];
    }
  }

  lemma {:induction false} OffersOfLog(log: seq<Offer>, events: seq<Event>)
    requires |events| == |log| && forall i | 0 <= i < |log| :: events[i].args == OfferRecorded(log[i])
    ensures OffersOf(events) == log
  {
    if log != [] {
      OffersOfLog(log[1..], events[1..]);
      assert log == [log[0]] + log[1..];
    }
  }

  lemma LogIsSorted(offers: seq<Offer>, s: Session)
    requires WellFormed(offers, s)
    ensures Sorted(offers) == offers
  {
    forall i, j | 0 <= i < j < |offers|
      ensures offers[i].sequence <= offers[j].sequence
    {
      assert WellFormedOffer(offers[i], i, s) && WellFormedOffer(offers[j], j, s);
    }
    SortedIsItself(offers);
  }

  lemma OneOpeningConfirms(events: seq<Event>, depth: nat, view: SessionView, log: seq<Offer>)
    requires |events| == |log| + 1 && events[0].args == SessionOpened(view) && Sorted(log) == log
    requires forall i | 0 <= i < |events| :: events[i].confirmations == Some(depth)
    requires forall i | 0 <= i < |log| :: events[i + 1].args == OfferRecorded(log[i])
    ensures ConfirmedSession(events, depth) == Ok((view, log))
  {
    assert forall e | e in events :: AtThreshold(e, depth) && !e.args.TerminalEvent? by {
      forall i | 0 < i < |events|
        ensures events[i].args.OfferRecorded?
      {
        assert events[(i - 1) + 1].args == OfferRecorded(log[i - 1]);
      }
    }
    assert events[0] in events;
    ConfirmedIff(events, depth);
    OffersOfLog(log, events[1..]);
    assert OffersOf(events) == log;
  }

  lemma EventsConfirm(x: Exchange.State, depth: nat)
    requires Sorted(x.log) == x.log
    ensures ConfirmedSession(EventsOf(x, depth), depth) == Ok((ViewOf(x.session), x.log))
  {
    OneOpeningConfirms(EventsOf(x, depth), depth, ViewOf(x.session), x.log);
  }

  /** The party to act always has a consistent observation of its own session: builder, agent and
      contract agree whose turn it is. */
  lemma ObservationIsConsistent(g: Setting, x: Exchange.State, depth: nat, chainTime: nat)
    requires Inv(g, x)
    ensures var turn := Turn(|x.log|);
      && Observed(g, x, depth, chainTime)
         == Ok(Assembled(x.log, ViewOf(g.session), g.RunRecords(), turn,
                         g.Of(turn).mandate, g.Of(turn).balances, chainTime))
      && Contradictions(Observed(g, x, depth, chainTime).value, g.session) == {}
      && NextProposer(Observed(g, x, depth, chainTime).value.history) == Some(turn)
      && (x.status.Open? ==> Exchange.NextProposerOf(x) == g.session.Party(turn))
  {
    LogIsSorted(x.log, g.session);
    EventsConfirm(x, depth);
    var turn := Turn(|x.log|);
    ProposersKnown(x.log, g.session, g.RunRecords());
    AssembledIsConsistent(x.log, g.session, g.RunRecords(), turn, g.Of(turn).mandate, g.Of(turn).balances, chainTime);
    if x.log != [] {
      assert WellFormedOffer(x.log[|x.log| - 1], |x.log| - 1, g.session);
    }
  }

  /** The last chain time at which the contract still takes an action. */
  function LatestFor(x: Exchange.State, a: SignedAction): nat {
    match a.message
    case OfferMessage(_, _, _, _, _, validUntil) => validUntil
    case AcceptMessage(_, _, _, _, _) => x.activeValidUntil
    case CloseMessage(_, _, _, _, _) => x.session.expiresAt
  }

  predicate AllowancesCover(x: Exchange.State, a: SignedAction) {
    a.message.AcceptMessage? ==> x.activeQuote <= x.buyer.allowance && x.session.baseAmount <= x.seller.allowance
  }

  lemma OfferCounts(g: Setting, x: Exchange.State, chainTime: nat)
    requires Inv(g, x)
    ensures var turn := Turn(|x.log|);
      OffersRecorded(Assembled(x.log, ViewOf(g.session), g.RunRecords(), turn,
                               g.Of(turn).mandate, g.Of(turn).balances, chainTime).history)
      == |x.log|
  {
    AllOffersCount(HistoryOf(x.log, g.RunRecords(), chainTime));
  }

  lemma {:induction false} AllOffersCount(h: seq<HistoryEntry>)
    requires forall i | 0 <= i < |h| :: IsOffer(h[i])
    ensures OffersRecorded(h) == |h|
  {
    if h != [] {
      AllOffersCount(h[1..]);
    }
  }

  /** What a signed action is, read off the session: its fields, and what was checked. */
  ghost predicate Sound(g: Setting, x: Exchange.State, a: SignedAction, chainTime: nat) {
    var turn := Turn(|x.log|);
    && chainTime < g.session.expiresAt
    && a.signer == g.session.Party(turn) == Exchange.SenderOf(a.message)
    && a.digest == HashOf(g.session.Domain(), a.message)
    && a.message.sequence == |x.log| + 1
    && a.message.sessionId == g.session.sessionId && a.message.configHash == g.session.configHash
    && (a.message.OfferMessage? ==>
          && 1 <= a.message.quoteAmount && g.Within(turn, a.message.quoteAmount) && |x.log| < g.session.maxOffers
          && a.message.validUntil == Min(chainTime + g.session.offerLifetime, g.session.expiresAt))
    && (a.message.AcceptMessage? ==>
          && x.log != [] && chainTime < x.activeValidUntil && x.activeHash == Some(a.message.offerHash)
          && g.Within(turn, x.activeQuote))
    && (a.message.CloseMessage? ==> 1 <= a.message.reason <= 3)
  }

  /** What an observation tells the validator and the signer, read off the session. */
  ghost predicate Shown(g: Setting, x: Exchange.State, o: Observation, chainTime: nat) {
    var turn := Turn(|x.log|);
    && o.role == turn && o.myAddress == g.session.Party(turn)
    && o.chainTime == chainTime && o.expectedSequence == |x.log| + 1
    && o.session == ViewOf(g.session) && OffersRecorded(o.history) == |x.log|
    && o.mandate == g.Of(turn).mandate && o.balances == g.Of(turn).balances
    && (o.active.Some? ==>
          && x.log != [] && o.active.value.validUntil == x.activeValidUntil
          && x.activeHash == Some(o.active.value.offerHash) && x.activeQuote == o.active.value.quoteAmount)
  }

  lemma ObservedIsShown(g: Setting, x: Exchange.State, depth: nat, chainTime: nat)
    requires Inv(g, x) && x.status.Open?
    ensures Observed(g, x, depth, chainTime).Ok?
    ensures Shown(g, x, Observed(g, x, depth, chainTime).value, chainTime)
  {
    ObservationIsConsistent(g, x, depth, chainTime);
    OfferCounts(g, x, chainTime);
    if x.log != [] {
      assert WellFormedOffer(x.log[|x.log| - 1], |x.log| - 1, g.session);
    }
  }

  lemma AnswerIsSound(g: Setting, x: Exchange.State, o: Observation, r: Response, a: SignedAction, chainTime: nat)
    requires Shown(g, x, o, chainTime) && Validate(r, o).Accepted?
    requires var d := Validate(r, o).decision;
      SignDecision(d, Some(g.session), o.expectedSequence, o.chainTime, o.role, o.myAddress) == Ok(a)
    ensures Sound(g, x, a, chainTime)
  {
    AcceptedIff(r, o);
  }

  lemma SignedIsSound(g: Setting, x: Exchange.State, depth: nat, r: Response, chainTime: nat)
    requires Inv(g, x) && x.status.Open? && Signed(g, x, depth, r, chainTime).Some?
    ensures Sound(g, x, Signed(g, x, depth, r, chainTime).value, chainTime)
  {
    ObservedIsShown(g, x, depth, chainTime);
    AnswerIsSound(g, x, Observed(g, x, depth, chainTime).value, r, Signed(g, x, depth, r, chainTime).value, chainTime);
  }

  /** An agent signs exactly what it was shown without contradiction, its validator accepts and its own
      party may still sign for. */
  lemma SignedIff(g: Setting, x: Exchange.State, depth: nat, r: Response, chainTime: nat)
    ensures Signed(g, x, depth, r, chainTime).Some? <==>
      && Observed(g, x, depth, chainTime).Ok?
      && var o := Observed(g, x, depth, chainTime).value;
         && Contradictions(o, g.session) == {} && Validate(r, o).Accepted?
         && o.chainTime < g.session.expiresAt && o.myAddress == g.session.Party(o.role)
  {
  }

  /** What is signed says what was answered: the amount offered, the digest accepted, or the number of the
      reason for leaving. */
  predicate Says(r: Response, m: Message) {
    match r
    case OfferResponse(amount) => m.OfferMessage? && m.quoteAmount == amount
    case AcceptResponse(hash) => m.AcceptMessage? && m.offerHash == hash
    case WalkAwayResponse(TermsUnacceptable) => m.CloseMessage? && m.reason == 1
    case WalkAwayResponse(InventoryConstraint) => m.CloseMessage? && m.reason == 2
    case WalkAwayResponse(NoFurtherConcession) => m.CloseMessage? && m.reason == 3
    case Unreadable(_) => false
  }

  lemma SignedSaysTheAnswer(g: Setting, x: Exchange.State, depth: nat, r: Response, chainTime: nat)
    requires Signed(g, x, depth, r, chainTime).Some?
    ensures Says(r, Signed(g, x, depth, r, chainTime).value.message)
  {
  }

  /** The standing offer is the other party's, within that party's own mandate. */
  lemma LastFacts(g: Setting, x: Exchange.State)
    requires Inv(g, x) && x.status.Open?
    ensures (if x.log == [] then g.session.buyer else x.activeProposer)
            == g.session.Party(if x.log == [] then Buyer else Turn(|x.log| - 1))
    ensures Exchange.NextProposerOf(x) == g.session.Party(Turn(|x.log|))
    ensures x.log != [] ==>
      x.activeProposer != g.session.Party(Turn(|x.log|)) && g.Within(Turn(|x.log| - 1), x.activeQuote)
  {
    if x.log != [] {
      var last := |x.log| - 1;
      assert WellFormedOffer(x.log[last], last, g.session);
      assert g.Within(Turn(last), x.log[last].quoteAmount);
    }
  }

  lemma SoundIsTakenIff(g: Setting, x: Exchange.State, a: SignedAction, chainTime: nat, now: nat)
    requires Inv(g, x) && x.status.Open? && Sound(g, x, a, chainTime) && chainTime <= now
    ensures Exchange.Submit(x, a, now).Ok? <==> now < LatestFor(x, a) && AllowancesCover(x, a)
  {
    LastFacts(g, x);
    assert x.log != [] ==> x.activeValidUntil <= g.session.expiresAt;
    assert now < LatestFor(x, a) ==> Exchange.VerifyCommon(x, a, now).None?;
  }

  lemma SoundKeepsInv(g: Setting, x: Exchange.State, a: SignedAction, chainTime: nat, now: nat)
    requires Inv(g, x) && x.status.Open? && Sound(g, x, a, chainTime) && Exchange.Submit(x, a, now).Ok?
    ensures var x' := Exchange.Submit(x, a, now).value;
      && Inv(g, x')
      && (if x'.status.Open?
          then |x'.log| == |x.log| + 1 && chainTime < x'.log[|x.log|].validUntil <= g.session.expiresAt
          else x'.log == x.log)
  {
    LastFacts(g, x);
    var x' := Exchange.Submit(x, a, now).value;
    if a.message.OfferMessage? {
      assert WellFormedOffer(x'.log[|x.log|], |x.log|, g.session);
      forall i | 0 <= i < |x'.log|
        ensures WellFormedOffer(x'.log[i], i, g.session)
      {
        if i < |x.log| {
          assert WellFormedOffer(x.log[i], i, g.session);
        }
      }
    }
  }

  /** Whatever policy made it, a signed action is taken by the contract exactly when it is mined in
      time and, for an acceptance, the allowances granted in setup cover the two legs. The balances
      always do: each proposer's validator checked its own leg before its offer was signed. */
  lemma SignedActionIsTakenIff(g: Setting, x: Exchange.State, depth: nat, r: Response, chainTime: nat, now: nat)
    requires Inv(g, x) && x.status.Open? && Signed(g, x, depth, r, chainTime).Some? && chainTime <= now
    ensures var a := Signed(g, x, depth, r, chainTime).value;
      Exchange.Submit(x, a, now).Ok? <==> now < LatestFor(x, a) && AllowancesCover(x, a)
  {
    SignedIsSound(g, x, depth, r, chainTime);
    SoundIsTakenIff(g, x, Signed(g, x, depth, r, chainTime).value, chainTime, now);
  }

  // ---------------------------------------------------------------------------------------------
  // Every negotiation
  // ---------------------------------------------------------------------------------------------

  /** One turn: the response, and the chain times it was decided and mined at. */
  datatype Played = Played(r: Response, depth: nat, chainTime: nat, now: nat)

  ghost predicate Step(g: Setting, x: Exchange.State, p: Played, x': Exchange.State) {
    var signed := Signed(g, x, p.depth, p.r, p.chainTime);
    x.status.Open? && signed.Some? && Exchange.Submit(x, signed.value, p.now) == Ok(x')
  }

  /** Recorded as the next event, a turn's action leaves a session whose next observation is
      consistent once more; an offer stands after the time it was decided at and no longer than the
      session. */
  lemma StepKeepsInv(g: Setting, x: Exchange.State, p: Played, x': Exchange.State)
    requires Inv(g, x) && Step(g, x, p, x')
    ensures Inv(g, x')
    ensures if x'.status.Open?
            then |x'.log| == |x.log| + 1 && p.chainTime < x'.log[|x.log|].validUntil <= g.session.expiresAt
            else x'.log == x.log
  {
    SignedIsSound(g, x, p.depth, p.r, p.chainTime);
    SoundKeepsInv(g, x, Signed(g, x, p.depth, p.r, p.chainTime).value, p.chainTime, p.now);
  }

  ghost predicate Run(g: Setting, xs: seq<Exchange.State>, ps: seq<Played>) {
    && g.session.Admissible()
    && |xs| == |ps| + 1
    && xs[0] == Exchange.Opened(g.session, g.PurseOf(Buyer), g.PurseOf(Seller))
    && forall i | 0 <= i < |ps| :: Step(g, xs[i], ps[i], xs[i + 1])
  }

  lemma {:induction false} RunKeepsInv(g: Setting, xs: seq<Exchange.State>, ps: seq<Played>, n: nat)
    requires Run(g, xs, ps) && n <= |ps|
    ensures Inv(g, xs[n])
    ensures xs[n].status.Open? ==> |xs[n].log| == n
    ensures !xs[n].status.Open? ==> |xs[n].log| == n - 1
  {
    if n > 0 {
      RunKeepsInv(g, xs, ps, n - 1);
      StepKeepsInv(g, xs[n - 1], ps[n - 1], xs[n]);
    }
  }

  /** Whatever the two policies answer and whenever their actions are mined: every observation of
      the negotiation is consistent, it has at most `maxOffers + 1` actions, and a settlement is at a
      price both mandates and both holdings allow. */
  lemma EveryNegotiation(g: Setting, xs: seq<Exchange.State>, ps: seq<Played>, n: nat, depth: nat, chainTime: nat)
    requires Run(g, xs, ps) && n <= |ps|
    ensures Observed(g, xs[n], depth, chainTime).Ok?
    ensures Contradictions(Observed(g, xs[n], depth, chainTime).value, g.session) == {}
    ensures |ps| <= g.session.maxOffers + 1
    ensures xs[n].settledAt.Some? ==> g.Within(Buyer, xs[n].settledAt.value) && g.Within(Seller, xs[n].settledAt.value)
  {
    RunKeepsInv(g, xs, ps, n);
    ObservationIsConsistent(g, xs[n], depth, chainTime);
    RunKeepsInv(g, xs, ps, |ps|);
  }
}
