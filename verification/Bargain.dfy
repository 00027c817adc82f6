/** Two deterministic agents against each other: when they settle, at what price, and how it ends. */
module Bargain {
  import opened Common
  import opened Protocol
  import opened Consistency
  import opened Builder
  import opened IndependentCheck
  import opened MandateValidation
  import opened Signing
  import opened Negotiation
  import opened DeterministicPolicy
  import Concession
  import Exchange

  // ---------------------------------------------------------------------------------------------
  // What the mandates allow
  // ---------------------------------------------------------------------------------------------

  /** The most the buyer may pay, and the least the seller may take. */
  function Cap(g: Setting): int {
    Min(g.buyer.mandate.reservation, g.buyer.balances.quote - g.buyer.mandate.floor)
  }

  function Low(g: Setting): nat { Max(g.seller.mandate.reservation, 1) }

  predicate Deliverable(g: Setting) {
    g.seller.balances.base - g.session.baseAmount >= g.seller.mandate.floor
  }

  predicate Feasible(g: Setting) { Deliverable(g) && Cap(g) >= Low(g) }

  predicate CapitalDoesNotBind(g: Setting) {
    g.buyer.balances.quote - g.buyer.mandate.floor >= g.buyer.mandate.reservation
  }

  predicate Amounts(g: Setting) {
    g.buyer.mandate.reservation <= UINT256_MAX && g.seller.mandate.reservation <= UINT256_MAX
  }

  // ---------------------------------------------------------------------------------------------
  // The schedule
  // ---------------------------------------------------------------------------------------------

  /** The price of the session's offer `i`, both parties conceding on schedule. */
  function PriceAt(g: Setting, i: nat): nat
    requires i < g.session.maxOffers
  {
    Concession.Price(Turn(i), g.Of(Turn(i)).mandate.reservation, i / 2, Opportunities(Turn(i), g.session.maxOffers))
  }

  /** The deterministic policies meet exactly when the buyer can afford one of its own scheduled
      offers that the seller takes, or that the seller answers with one the buyer can afford. */
  ghost predicate Meets(g: Setting) {
    exists k: nat :: MeetsAt(g, k)
  }

  predicate MeetsAt(g: Setting, k: nat) {
    2 * k < g.session.maxOffers && Deliverable(g) && PriceAt(g, 2 * k) <= Cap(g) &&
    (PriceAt(g, 2 * k) >= g.seller.mandate.reservation
     || (2 * k + 1 < g.session.maxOffers && PriceAt(g, 2 * k + 1) <= Cap(g)))
  }

  /** Settlement from the state in which `j` offers stand unaccepted. */
  predicate SettlesFrom(g: Setting, j: nat)
    requires j <= g.session.maxOffers
    decreases g.session.maxOffers - j
  {
    (j > 0 && g.Within(Turn(j), PriceAt(g, j - 1)))
    || (j < g.session.maxOffers && g.Within(Turn(j), PriceAt(g, j)) && SettlesFrom(g, j + 1))
  }

  lemma ScheduleBounds(g: Setting, i: nat)
    requires Amounts(g) && i < g.session.maxOffers
    ensures 1 <= PriceAt(g, i) <= UINT256_MAX
    ensures Turn(i) == Seller ==> PriceAt(g, i) >= Low(g)
    ensures Turn(i) == Buyer ==> PriceAt(g, i) <= Max(g.buyer.mandate.reservation, 1)
  {
    Concession.SafeSide(Turn(i), g.Of(Turn(i)).mandate.reservation, i / 2, Opportunities(Turn(i), g.session.maxOffers));
  }

  lemma WithinIff(g: Setting, price: nat)
    ensures g.Within(Buyer, price) <==> price <= Cap(g)
    ensures g.Within(Seller, price) <==> price >= g.seller.mandate.reservation && Deliverable(g)
  {
  }

  ghost predicate MeetsFrom(g: Setting, k: nat) {
    exists i: nat :: k <= i && MeetsAt(g, i)
  }

  lemma MeetsFromNext(g: Setting, k: nat)
    requires Amounts(g) && 2 * k < g.session.maxOffers
    ensures MeetsFrom(g, k) <==> MeetsAt(g, k) || MeetsFrom(g, k + 1)
    ensures MeetsFrom(g, k) ==> PriceAt(g, 2 * k) <= Cap(g) && Deliverable(g)
    ensures MeetsFrom(g, k + 1) ==> 2 * k + 2 < g.session.maxOffers
  {
    if MeetsFrom(g, k) {
      var i: nat :| k <= i && MeetsAt(g, i);
      BuyerConcedesTo(g, k, i);
    }
    if MeetsFrom(g, k + 1) {
      var i: nat :| k + 1 <= i && MeetsAt(g, i);
      assert k <= i;
    }
  }

  /** The seller's turn, in terms of prices and the cap. */
  lemma SellersTurn(g: Setting, k: nat)
    requires Amounts(g) && 2 * k < g.session.maxOffers
    ensures SettlesFrom(g, 2 * k + 1) <==>
      ((PriceAt(g, 2 * k) >= g.seller.mandate.reservation && Deliverable(g))
       || (2 * k + 1 < g.session.maxOffers && Deliverable(g) && SettlesFrom(g, 2 * k + 2)))
  {
    assert Turn(2 * k + 1) == Seller;
    WithinIff(g, PriceAt(g, 2 * k));
    if 2 * k + 1 < g.session.maxOffers {
      ScheduleBounds(g, 2 * k + 1);
      WithinIff(g, PriceAt(g, 2 * k + 1));
    }
  }

  /** And the buyer's after it. */
  lemma BuyersTurn(g: Setting, k: nat)
    requires Amounts(g) && 2 * k + 1 < g.session.maxOffers
    ensures SettlesFrom(g, 2 * k + 2) <==>
      (PriceAt(g, 2 * k + 1) <= Cap(g)
       || (2 * k + 2 < g.session.maxOffers && PriceAt(g, 2 * k + 2) <= Cap(g) && SettlesFrom(g, 2 * k + 3)))
  {
    assert Turn(2 * k + 2) == Buyer;
    WithinIff(g, PriceAt(g, 2 * k + 1));
    if 2 * k + 2 < g.session.maxOffers {
      WithinIff(g, PriceAt(g, 2 * k + 2));
    }
  }

  lemma MeetsNowOrLater(g: Setting, k: nat)
    requires Amounts(g) && 2 * k < g.session.maxOffers && PriceAt(g, 2 * k) <= Cap(g) && Deliverable(g)
    ensures SettlesFrom(g, 2 * k + 1) <==>
      (MeetsAt(g, k)
       || (2 * k + 2 < g.session.maxOffers && PriceAt(g, 2 * k + 2) <= Cap(g) && SettlesFrom(g, 2 * k + 3)))
  {
    SellersTurn(g, k);
    if 2 * k + 1 < g.session.maxOffers {
      BuyersTurn(g, k);
    }
  }

  lemma OnlyDeliverableSettles(g: Setting, k: nat)
    requires Amounts(g) && 2 * k < g.session.maxOffers && SettlesFrom(g, 2 * k + 1)
    ensures Deliverable(g)
  {
    SellersTurn(g, k);
  }

  /** From the buyer's turn after `k` offers of its own, none accepted: it can make its next offer
      and settle exactly when the parties meet at or after it. */
  lemma {:induction false} SettlesIffMeetsLater(g: Setting, k: nat)
    requires Amounts(g) && 2 * k < g.session.maxOffers
    ensures (PriceAt(g, 2 * k) <= Cap(g) && SettlesFrom(g, 2 * k + 1)) <==> MeetsFrom(g, k)
    decreases g.session.maxOffers - 2 * k
  {
    MeetsFromNext(g, k);
    if PriceAt(g, 2 * k) <= Cap(g) && SettlesFrom(g, 2 * k + 1) {
      OnlyDeliverableSettles(g, k);
    }
    if PriceAt(g, 2 * k) <= Cap(g) && Deliverable(g) {
      MeetsNowOrLater(g, k);
    }
    if 2 * k + 2 < g.session.maxOffers {
      SettlesIffMeetsLater(g, k + 1);
    }
  }

  lemma BuyerConcedesTo(g: Setting, k: nat, i: nat)
    requires k <= i && 2 * i < g.session.maxOffers
    ensures PriceAt(g, 2 * k) <= PriceAt(g, 2 * i)
  {
    assert Turn(2 * k) == Turn(2 * i) == Buyer && (2 * k) / 2 == k && (2 * i) / 2 == i;
    Concession.Monotone(Buyer, g.buyer.mandate.reservation, k, i, Opportunities(Buyer, g.session.maxOffers));
  }

  lemma SettlesIffMeets(g: Setting)
    requires Amounts(g) && 1 <= g.session.maxOffers
    ensures SettlesFrom(g, 0) <==> Meets(g)
  {
    SettlesIffMeetsLater(g, 0);
    WithinIff(g, PriceAt(g, 0));
    assert Turn(0) == Buyer;
    if k: nat :| MeetsAt(g, k) {
      assert MeetsFrom(g, 0);
    }
  }

  /** The buyer's last offer is at its reservation, or 1. */
  lemma BuyersLastOffer(g: Setting, k: nat)
    requires Amounts(g) && 1 <= g.session.maxOffers && k == Opportunities(Buyer, g.session.maxOffers) - 1
    ensures 2 * k < g.session.maxOffers && PriceAt(g, 2 * k) == Max(g.buyer.mandate.reservation, 1)
  {
    assert Turn(2 * k) == Buyer && (2 * k) / 2 == k;
    Concession.LastIsBound(Buyer, g.buyer.mandate.reservation, k + 1);
  }

  /** With capital that does not bind, meeting is feasibility: both policies reach their bounds. */
  lemma MeetsIffFeasible(g: Setting)
    requires Amounts(g) && 1 <= g.session.maxOffers && CapitalDoesNotBind(g)
    ensures Meets(g) <==> Feasible(g)
  {
    if Feasible(g) {
      var k := Opportunities(Buyer, g.session.maxOffers) - 1;
      BuyersLastOffer(g, k);
      assert MeetsAt(g, k);
    }
    if Meets(g) {
      MeetsImpliesFeasible(g);
    }
  }

  /** Meeting always implies feasibility. The converse fails where capital binds: a buyer that may
      pay 90, below its reservation of 100, opens at its reservation and leaves a seller that would
      have taken 50. */
  lemma MeetsImpliesFeasible(g: Setting)
    requires Amounts(g) && Meets(g)
    ensures Feasible(g)
  {
    var k: nat :| MeetsAt(g, k);
    ScheduleBounds(g, 2 * k);
    if 2 * k + 1 < g.session.maxOffers {
      ScheduleBounds(g, 2 * k + 1);
    }
  }

  lemma BindingCapitalMissesADeal(g: Setting)
    requires g.session.maxOffers == 2 && g.session.baseAmount == 10
    requires g.buyer.mandate == Mandate(100, 10) && g.buyer.balances.quote == 100
    requires g.seller.mandate == Mandate(50, 0) && g.seller.balances.base == 10
    ensures Feasible(g) && !Meets(g)
  {
    forall k: nat
      ensures !MeetsAt(g, k)
    {
      if 2 * k < 2 {
        assert k == 0 && PriceAt(g, 0) == 100;
      }
    }
  }

  // ---------------------------------------------------------------------------------------------
  // A turn of the baseline
  // ---------------------------------------------------------------------------------------------

  /** Every recorded offer is the schedule's. */
  ghost predicate OnSchedule(g: Setting, log: seq<Offer>) {
    |log| <= g.session.maxOffers && forall i | 0 <= i < |log| :: log[i].quoteAmount == PriceAt(g, i)
  }

  lemma {:induction false} OwnShare(offers: seq<Offer>, records: Records, role: Role, from: nat)
    requires forall i | 0 <= i < |offers| :: records.RoleOf(offers[i].proposer) == Some(Turn(from + i))
    ensures OwnOffers(offers, records, role) == (if Turn(from) == role then (|offers| + 1) / 2 else |offers| / 2)
  {
    if offers != [] {
      assert forall i | 0 <= i < |offers| - 1 :: offers[1..][i] == offers[i + 1];
      OwnShare(offers[1..], records, role, from + 1);
    }
  }

  /** What the party to act sees of its turn, its own share and the standing offer. */
  ghost predicate Sees(g: Setting, j: nat, t: nat, o: Observation) {
    && o.role == Turn(j) && o.session == ViewOf(g.session) && o.chainTime == t
    && o.mandate == g.Of(Turn(j)).mandate && o.balances == g.Of(Turn(j)).balances
    && NextProposer(o.history) == Some(Turn(j)) && OffersRecorded(o.history) == j
    && OwnOffersRecorded(o.history, Turn(j)) == j / 2
    && (o.offersRemaining > 0 <==> j < g.session.maxOffers)
    && (if j == 0 then o.active.None?
        else o.active.Some? && o.active.value.proposer == Turn(j - 1) && t < o.active.value.validUntil
             && j <= g.session.maxOffers && o.active.value.quoteAmount == PriceAt(g, j - 1))
  }

  lemma AssembledShare(g: Setting, log: seq<Offer>, t: nat)
    requires WellFormed(log, g.session) && g.session.Admissible()
    ensures var turn := Turn(|log|);
      var o := Assembled(log, ViewOf(g.session), g.RunRecords(), turn, g.Of(turn).mandate, g.Of(turn).balances, t);
      OwnOffersRecorded(o.history, turn) == |log| / 2 && (o.offersRemaining > 0 <==> |log| < g.session.maxOffers)
  {
    var turn := Turn(|log|);
    ProposersKnown(log, g.session, g.RunRecords());
    OwnShare(log, g.RunRecords(), turn, 0);
    OwnCountsAgree(log, HistoryOf(log, g.RunRecords(), t), g.RunRecords(), turn);
  }

  lemma TurnView(g: Setting, x: Exchange.State, depth: nat, t: nat)
    requires Inv(g, x) && x.status.Open? && OnSchedule(g, x.log)
    requires x.log != [] ==> t < x.activeValidUntil
    ensures Observed(g, x, depth, t).Ok? && Sees(g, |x.log|, t, Observed(g, x, depth, t).value)
  {
    ObservationIsConsistent(g, x, depth, t);
    ObservedIsShown(g, x, depth, t);
    AssembledShare(g, x.log, t);
    ProposersKnown(x.log, g.session, g.RunRecords());
  }

  /** The baseline's whole decision, off the schedule and the mandates. */
  ghost predicate Decides(g: Setting, j: nat, r: Response)
    requires j <= g.session.maxOffers
  {
    if j > 0 && g.Within(Turn(j), PriceAt(g, j - 1)) then r.AcceptResponse?
    else if j < g.session.maxOffers && g.Within(Turn(j), PriceAt(g, j)) then r == OfferResponse(PriceAt(g, j))
    else
      r.WalkAwayResponse? &&
      (j == g.session.maxOffers && j > 0 && Deliverable(g) && OutsideReservation(g, j) ==>
         r.reason == TermsUnacceptable)
  }

  /** The last offer made is one the party to act refuses for its price alone. */
  predicate OutsideReservation(g: Setting, j: nat)
    requires 0 < j <= g.session.maxOffers
  {
    if Turn(j) == Buyer then PriceAt(g, j - 1) > g.buyer.mandate.reservation
    else PriceAt(g, j - 1) < g.seller.mandate.reservation
  }

  lemma SightOffer(g: Setting, j: nat, t: nat, o: Observation)
    requires Sees(g, j, t, o) && j < g.session.maxOffers && Amounts(g)
    ensures Playable(o) && NextPrice(o) == PriceAt(g, j)
    ensures Validate(OfferResponse(NextPrice(o)), o).Accepted? <==> g.Within(Turn(j), PriceAt(g, j))
  {
    assert NextPrice(o) == PriceAt(g, j);
    ScheduleBounds(g, j);
    AcceptedIff(OfferResponse(NextPrice(o)), o);
  }

  lemma SightAccept(g: Setting, j: nat, t: nat, o: Observation)
    requires Sees(g, j, t, o) && Playable(o)
    ensures Choose(o).AcceptResponse? <==> j > 0 && j <= g.session.maxOffers && g.Within(Turn(j), PriceAt(g, j - 1))
  {
    AcceptsWhatItMay(o);
  }

  lemma SightDecides(g: Setting, j: nat, t: nat, o: Observation)
    requires Sees(g, j, t, o) && j <= g.session.maxOffers && Amounts(g)
    ensures Playable(o) && Decides(g, j, Choose(o))
  {
    if j < g.session.maxOffers {
      SightOffer(g, j, t, o);
    }
    SightAccept(g, j, t, o);
  }

  lemma TurnDecision(g: Setting, x: Exchange.State, depth: nat, t: nat)
    requires Inv(g, x) && x.status.Open? && OnSchedule(g, x.log) && Amounts(g)
    requires x.log != [] ==> t < x.activeValidUntil
    ensures Observed(g, x, depth, t).Ok? && Playable(Observed(g, x, depth, t).value)
    ensures Decides(g, |x.log|, Choose(Observed(g, x, depth, t).value))
  {
    TurnView(g, x, depth, t);
    SightDecides(g, |x.log|, t, Observed(g, x, depth, t).value);
  }

  // ---------------------------------------------------------------------------------------------
  // The whole game
  // ---------------------------------------------------------------------------------------------

  /** A negotiation in which each party answers with the baseline and each offer still stands when
      its answer is decided. */
  ghost predicate Game(g: Setting, xs: seq<Exchange.State>, ps: seq<Played>) {
    && Run(g, xs, ps) && Amounts(g)
    && (forall i | 0 <= i < |ps| :: xs[i].log != [] ==> ps[i].chainTime < xs[i].activeValidUntil)
    && (forall i | 0 <= i < |ps| :: ByBaseline(g, xs[i], ps[i]))
  }

  ghost predicate ByBaseline(g: Setting, x: Exchange.State, p: Played) {
    var observed := Observed(g, x, p.depth, p.chainTime);
    observed.Ok? && Playable(observed.value) && p.r == Choose(observed.value)
  }

  /** One turn of the game, against the schedule. */
  ghost predicate Follows(g: Setting, n: nat, x': Exchange.State)
    requires n <= g.session.maxOffers
  {
    && OnSchedule(g, x'.log)
    && (x'.status.Settled? <==> n > 0 && g.Within(Turn(n), PriceAt(g, n - 1)))
    && (x'.status.Settled? ==> x'.settledAt == Some(PriceAt(g, n - 1)))
    && (x'.status.Open? ==> |x'.log| == n + 1 && n < g.session.maxOffers)
    && (x'.status.Open? <==> !x'.status.Settled? && n < g.session.maxOffers && g.Within(Turn(n), PriceAt(g, n)))
  }

  lemma SubmittedFollows(g: Setting, x: Exchange.State, a: SignedAction, r: Response, now: nat)
    requires Inv(g, x) && x.status.Open? && OnSchedule(g, x.log) && Decides(g, |x.log|, r) && Says(r, a.message)
    requires Exchange.Submit(x, a, now).Ok?
    ensures Follows(g, |x.log|, Exchange.Submit(x, a, now).value)
  {
    var n, x' := |x.log|, Exchange.Submit(x, a, now).value;
    if n > 0 {
      assert x.activeQuote == PriceAt(g, n - 1);
    }
    if a.message.OfferMessage? {
      assert n < g.session.maxOffers;
      assert x'.log[n].quoteAmount == PriceAt(g, n);
    }
  }

  lemma GameTurn(g: Setting, xs: seq<Exchange.State>, ps: seq<Played>, n: nat)
    requires Game(g, xs, ps) && n < |ps| && Inv(g, xs[n])
    requires xs[n].status.Open? && OnSchedule(g, xs[n].log) && |xs[n].log| == n
    ensures Inv(g, xs[n + 1]) && Follows(g, n, xs[n + 1]) && Decides(g, n, ps[n].r)
  {
    var x, p := xs[n], ps[n];
    TurnDecision(g, x, p.depth, p.chainTime);
    assert Step(g, x, p, xs[n + 1]) && ByBaseline(g, x, p);
    StepKeepsInv(g, x, p, xs[n + 1]);
    SignedSaysTheAnswer(g, x, p.depth, p.r, p.chainTime);
    SubmittedFollows(g, x, Signed(g, x, p.depth, p.r, p.chainTime).value, p.r, p.now);
  }

  /** While the game is open nothing decided so far has changed whether it settles. */
  lemma {:induction false} GameSoFar(g: Setting, xs: seq<Exchange.State>, ps: seq<Played>, n: nat)
    requires Game(g, xs, ps) && n <= |ps| && xs[n].status.Open?
    ensures Inv(g, xs[n]) && OnSchedule(g, xs[n].log) && |xs[n].log| == n
    ensures SettlesFrom(g, 0) <==> SettlesFrom(g, n)
  {
    if n > 0 {
      assert Step(g, xs[n - 1], ps[n - 1], xs[n]);
      GameSoFar(g, xs, ps, n - 1);
      GameTurn(g, xs, ps, n - 1);
    }
  }

  /** Two deterministic agents, mandates and holdings of any kind: within `maxOffers + 1` actions,
      they settle exactly when their schedules meet, at a price inside the feasible interval. */
  lemma GameSettlesIffMeets(g: Setting, xs: seq<Exchange.State>, ps: seq<Played>)
    requires Game(g, xs, ps) && !xs[|ps|].status.Open?
    ensures xs[|ps|].status.Settled? <==> Meets(g)
    ensures xs[|ps|].status.Settled? ==>
      xs[|ps|].settledAt.Some? && Low(g) <= xs[|ps|].settledAt.value <= Cap(g)
    ensures 1 <= |ps| <= g.session.maxOffers + 1
  {
    var n := |ps| - 1;
    assert Step(g, xs[n], ps[n], xs[n + 1]);
    GameSoFar(g, xs, ps, n);
    GameTurn(g, xs, ps, n);
    SettlesIffMeets(g);
    if xs[n + 1].status.Settled? {
      WithinIff(g, xs[n + 1].settledAt.value);
    }
  }

  /** Offer `i` of the session is on its proposer's line, between that party's own first and last. */
  predicate OnTheLine(g: Setting, i: nat, price: nat) {
    if i % 2 == 0
    then Concession.Asks(Buyer, g.buyer.mandate.reservation, i / 2, (g.session.maxOffers + 1) / 2, price)
    else Concession.Asks(Seller, g.seller.mandate.reservation, i / 2, g.session.maxOffers / 2, price)
  }

  lemma ScheduleIsOnTheLine(g: Setting, i: nat)
    requires Amounts(g) && i < g.session.maxOffers
    ensures OnTheLine(g, i, PriceAt(g, i))
  {
    Concession.PriceIsOnTheLine(Turn(i), g.Of(Turn(i)).mandate.reservation, i / 2,
                                Opportunities(Turn(i), g.session.maxOffers));
  }

  /** Each offer made so far but the standing one was declined by the party it was made to. */
  lemma {:induction false} DeclinedSoFar(g: Setting, xs: seq<Exchange.State>, ps: seq<Played>, n: nat)
    requires Game(g, xs, ps) && n <= |ps| && xs[n].status.Open?
    ensures |xs[n].log| == n && OnSchedule(g, xs[n].log)
    ensures forall i | 0 <= i < n :: g.Within(Turn(i), PriceAt(g, i))
    ensures forall i | 0 <= i < n - 1 :: !g.Within(Turn(i + 1), PriceAt(g, i))
  {
    GameSoFar(g, xs, ps, n);
    if n > 0 {
      assert Step(g, xs[n - 1], ps[n - 1], xs[n]);
      DeclinedSoFar(g, xs, ps, n - 1);
      GameSoFar(g, xs, ps, n - 1);
      GameTurn(g, xs, ps, n - 1);
    }
  }

  /** The whole played game in terms of the two reservations: every offer is on its line and within its
      proposer's mandate, each but the last is outside the mandate of the party it was made to, and the
      game settles exactly when the last is within it, at that offer's price. It closes where no offer is
      left, or the next on its line is outside its own proposer's mandate. */
  lemma GameFollowsTheLines(g: Setting, xs: seq<Exchange.State>, ps: seq<Played>)
    requires Game(g, xs, ps) && !xs[|ps|].status.Open?
    ensures var x := xs[|ps|];
      var last := |x.log| - 1;
      && |ps| == |x.log| + 1
      && (forall i | 0 <= i <= last ::
            OnTheLine(g, i, x.log[i].quoteAmount) && g.Within(Turn(i), x.log[i].quoteAmount))
      && (forall i | 0 <= i < last :: !g.Within(Turn(i + 1), x.log[i].quoteAmount))
      && (x.status.Settled? <==> last >= 0 && g.Within(Turn(last + 1), x.log[last].quoteAmount))
      && (x.status.Settled? ==> x.settledAt == Some(x.log[last].quoteAmount))
      && (x.status.Closed? ==>
            |x.log| == g.session.maxOffers
            || forall price: nat | OnTheLine(g, |x.log|, price) :: !g.Within(Turn(|x.log|), price))
  {
    var n := |ps| - 1;
    assert Step(g, xs[n], ps[n], xs[n + 1]);
    DeclinedSoFar(g, xs, ps, n);
    GameSoFar(g, xs, ps, n);
    GameTurn(g, xs, ps, n);
    StepKeepsInv(g, xs[n], ps[n], xs[n + 1]);
    forall price: nat | n < g.session.maxOffers && OnTheLine(g, n, price)
      ensures price == PriceAt(g, n)
    {
      OnlyTheSchedule(g, n, price);
    }
    forall i | 0 <= i < n
      ensures OnTheLine(g, i, xs[n].log[i].quoteAmount)
    {
      ScheduleIsOnTheLine(g, i);
    }
  }

  lemma OnlyTheSchedule(g: Setting, i: nat, price: nat)
    requires Amounts(g) && i < g.session.maxOffers && OnTheLine(g, i, price)
    ensures price == PriceAt(g, i)
  {
    ScheduleIsOnTheLine(g, i);
    Concession.OnePriceIsAsked(Turn(i), g.Of(Turn(i)).mandate.reservation, i / 2,
                               Opportunities(Turn(i), g.session.maxOffers), price, PriceAt(g, i));
  }

  /** With capital that does not bind, that is exactly feasibility. */
  lemma GameSettlesIffFeasible(g: Setting, xs: seq<Exchange.State>, ps: seq<Played>)
    requires Game(g, xs, ps) && !xs[|ps|].status.Open? && CapitalDoesNotBind(g)
    ensures xs[|ps|].status.Settled? <==> Feasible(g)
  {
    GameSettlesIffMeets(g, xs, ps);
    MeetsIffFeasible(g);
  }

  /** Where the seller can deliver and the buyer's reservation is positive but below what the seller
      takes, every offer is made and the party left without one leaves over the terms. */
  lemma InfeasibleGameRunsOut(g: Setting, xs: seq<Exchange.State>, ps: seq<Played>)
    requires Game(g, xs, ps) && !xs[|ps|].status.Open? && CapitalDoesNotBind(g)
    requires Deliverable(g) && 1 <= g.buyer.mandate.reservation && !Feasible(g)
    ensures xs[|ps|].status.Closed? && |ps| == g.session.maxOffers + 1
    ensures ps[|ps| - 1].r == WalkAwayResponse(TermsUnacceptable)
  {
    GameSettlesIffFeasible(g, xs, ps);
    var n := |ps| - 1;
    assert Step(g, xs[n], ps[n], xs[n + 1]);
    GameSoFar(g, xs, ps, n);
    GameTurn(g, xs, ps, n);
    if n < g.session.maxOffers {
      ScheduleBounds(g, n);
      WithinIff(g, PriceAt(g, n));
    }
    if n > 0 {
      ScheduleBounds(g, n - 1);
      WithinIff(g, PriceAt(g, n - 1));
    }
  }

  lemma OpenGameSigns(g: Setting, xs: seq<Exchange.State>, ps: seq<Played>, depth: nat, t: nat)
    requires Game(g, xs, ps) && xs[|ps|].status.Open? && t < g.session.expiresAt
    requires xs[|ps|].log != [] ==> t < xs[|ps|].activeValidUntil
    ensures Inv(g, xs[|ps|])
    ensures var observed := Observed(g, xs[|ps|], depth, t);
      && observed.Ok? && Playable(observed.value)
      && Signed(g, xs[|ps|], depth, Choose(observed.value), t).Some?
  {
    var x := xs[|ps|];
    GameSoFar(g, xs, ps, |ps|);
    TurnDecision(g, x, depth, t);
    ObservationIsConsistent(g, x, depth, t);
    NeverRefused(Observed(g, x, depth, t).value);
    ObservedIsShown(g, x, depth, t);
    SignedIff(g, x, depth, Choose(Observed(g, x, depth, t).value), t);
  }

  /** The game never sticks: while it is open the party to act signs something, and the contract
      takes it if it is mined in time and the allowances cover an acceptance. */
  lemma GameGoesOn(g: Setting, xs: seq<Exchange.State>, ps: seq<Played>, depth: nat, t: nat, now: nat)
    requires Game(g, xs, ps) && xs[|ps|].status.Open? && t <= now && t < g.session.expiresAt
    requires xs[|ps|].log != [] ==> t < xs[|ps|].activeValidUntil
    ensures var observed := Observed(g, xs[|ps|], depth, t);
      && observed.Ok? && Playable(observed.value)
      && Signed(g, xs[|ps|], depth, Choose(observed.value), t).Some?
      && var a := Signed(g, xs[|ps|], depth, Choose(observed.value), t).value;
         (now < LatestFor(xs[|ps|], a) && AllowancesCover(xs[|ps|], a) <==> Exchange.Submit(xs[|ps|], a, now).Ok?)
  {
    OpenGameSigns(g, xs, ps, depth, t);
    SignedActionIsTakenIff(g, xs[|ps|], depth, Choose(Observed(g, xs[|ps|], depth, t).value), t, now);
  }
}
