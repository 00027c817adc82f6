/** The run's derived figures: feasibility, utilities and the count of mandate violations. */
module Figures {
  import opened Common
  import opened Protocol
  import opened Builder
  import opened IndependentCheck
  import opened Signing
  import opened Negotiation
  import Bargain
  import Exchange

  datatype Limits = Limits(high: int, low: nat, deliverable: bool)

  function LimitsOf(g: Setting): Limits {
    Limits(Bargain.Cap(g), Bargain.Low(g), Bargain.Deliverable(g))
  }

  datatype Feasibility = Feasibility(feasible: bool, interval: Option<(int, int)>, surplus: Option<int>)

  function FeasibilityOf(g: Setting): Feasibility {
    var l := LimitsOf(g);
    if !l.deliverable || l.high < l.low then Feasibility(false, None, None)
    else Feasibility(true, Some((l.low, l.high)), Some(l.high - l.low))
  }

  /** Buyer's and seller's, none without a settlement. */
  function Utilities(g: Setting, settled: Option<nat>): (Option<int>, Option<int>) {
    if settled.None? then (None, None)
    else (Some(LimitsOf(g).high - settled.value), Some(settled.value - LimitsOf(g).low))
  }

  predicate Outside(role: Role, quote: nat, l: Limits) {
    if role.Buyer? then quote > l.high else quote < l.low || !l.deliverable
  }

  /** The amount of the latest signed offer with this digest. */
  function QuoteOf(actions: seq<SignedAction>, digest: Digest): Option<nat> {
    if actions == [] then None
    else
      var last := actions[|actions| - 1];
      if last.message.OfferMessage? && last.digest == digest then Some(last.message.quoteAmount)
      else QuoteOf(actions[..|actions| - 1], digest)
  }

  function PriceOf(actions: seq<SignedAction>, a: SignedAction): Option<nat> {
    match a.message
    case OfferMessage(_, _, _, _, quoteAmount, _) => Some(quoteAmount)
    case AcceptMessage(_, _, _, _, offerHash) => QuoteOf(actions, offerHash)
    case CloseMessage(_, _, _, _, _) => None
  }

  /** A party of the run signed an offer, or accepted a signed offer, at a price outside its mandate. */
  predicate Violates(g: Setting, actions: seq<SignedAction>, a: SignedAction) {
    var role := g.RunRecords().RoleOf(a.signer);
    var price := PriceOf(actions, a);
    role.Some? && price.Some? && Outside(role.value, price.value, LimitsOf(g))
  }

  method SignedAmounts(actions: seq<SignedAction>) returns (offers: map<Digest, nat>)
    ensures forall d :: (if d in offers then Some(offers[d]) else None) == QuoteOf(actions, d)
  {
    offers := map[];
    for i := 0 to |actions|
      invariant forall d :: (if d in offers then Some(offers[d]) else None) == QuoteOf(actions[..i], d)
    {
      assert actions[..i + 1][..i] == actions[..i];
      if actions[i].message.OfferMessage? {
        offers := offers[actions[i].digest := actions[i].message.quoteAmount];
      }
    }
    assert actions[..|actions|] == actions;
  }

  /** The count, as it is taken: the signed amounts by digest first, then action by action. */
  method MandateViolations(g: Setting, actions: seq<SignedAction>) returns (count: nat)
    ensures count == |set i | 0 <= i < |actions| && Violates(g, actions, actions[i])|
  {
    var offers := SignedAmounts(actions);
    count := 0;
    ghost var found: set<int> := {};
    for i := 0 to |actions|
      invariant found == set j | 0 <= j < i && Violates(g, actions, actions[j])
      invariant count == |found|
    {
      var a := actions[i];
      var role := g.RunRecords().RoleOf(a.signer);
      if role.Some? && !a.message.CloseMessage? {
        var quote := if a.message.OfferMessage? then Some(a.message.quoteAmount)
          else if a.message.offerHash in offers then Some(offers[a.message.offerHash]) else None;
        assert quote == PriceOf(actions, a);
        if quote.Some? && Outside(role.value, quote.value, LimitsOf(g)) {
          count := count + 1;
          found := found + {i};
        }
      }
    }
  }

  // ---------------------------------------------------------------------------------------------
  // What the agents sign is never a violation
  // ---------------------------------------------------------------------------------------------

  /** Signed at some turn of some negotiation of this setting: a reorganised chain may have shown
      the agents several. */
  ghost predicate SignedInSomeRun(g: Setting, a: SignedAction) {
    exists xs, ps, n: nat, p :: SignedAt(g, xs, ps, n, p, a)
  }

  ghost predicate SignedAt(g: Setting, xs: seq<Exchange.State>, ps: seq<Played>, n: nat, p: Played, a: SignedAction) {
    Run(g, xs, ps) && n <= |ps| && xs[n].status.Open? && Signed(g, xs[n], p.depth, p.r, p.chainTime) == Some(a)
  }

  lemma WithinIsNotOutside(g: Setting, role: Role, price: nat)
    requires 1 <= price
    ensures g.Within(role, price) <==> !Outside(role, price, LimitsOf(g))
  {
  }

  /** What signing established, with the price a digest commits to. */
  ghost predicate Authorised(g: Setting, a: SignedAction) {
    && a.digest == HashOf(g.session.Domain(), a.message)
    && a.signer in {g.session.buyer, g.session.seller}
    && g.session.buyer != g.session.seller
    && var role := if a.signer == g.session.buyer then Buyer else Seller;
       && (a.message.OfferMessage? ==> 1 <= a.message.quoteAmount && g.Within(role, a.message.quoteAmount))
       && (a.message.AcceptMessage? ==>
             && a.message.offerHash.HashOf? && a.message.offerHash.message.OfferMessage?
             && 1 <= a.message.offerHash.message.quoteAmount && g.Within(role, a.message.offerHash.message.quoteAmount))
  }

  lemma SoundIsAuthorised(g: Setting, x: Exchange.State, a: SignedAction, chainTime: nat)
    requires Inv(g, x) && x.status.Open? && Sound(g, x, a, chainTime)
    ensures Authorised(g, a)
  {
    if a.message.AcceptMessage? {
      assert WellFormedOffer(x.log[|x.log| - 1], |x.log| - 1, g.session);
    }
  }

  lemma SignedIsAuthorised(g: Setting, a: SignedAction)
    requires SignedInSomeRun(g, a)
    ensures Authorised(g, a)
  {
    var xs, ps, n: nat, p :| SignedAt(g, xs, ps, n, p, a);
    RunKeepsInv(g, xs, ps, n);
    SignedIsSound(g, xs[n], p.depth, p.r, p.chainTime);
    SoundIsAuthorised(g, xs[n], a, p.chainTime);
  }

  lemma {:induction false} QuoteIsCommitted(g: Setting, actions: seq<SignedAction>, digest: Digest)
    requires forall a | a in actions :: Authorised(g, a)
    requires QuoteOf(actions, digest).Some?
    ensures digest.HashOf? && digest.message.OfferMessage?
    ensures QuoteOf(actions, digest).value == digest.message.quoteAmount
  {
    var last := actions[|actions| - 1];
    assert Authorised(g, last);
    if !(last.message.OfferMessage? && last.digest == digest) {
      QuoteIsCommitted(g, actions[..|actions| - 1], digest);
    }
  }

  /** Whatever the policies answered, over all the negotiations the chain ever showed the agents,
      no signed action is a mandate violation. */
  lemma NoViolations(g: Setting, actions: seq<SignedAction>)
    requires forall a | a in actions :: SignedInSomeRun(g, a)
    ensures (set i | 0 <= i < |actions| && Violates(g, actions, actions[i])) == {}
  {
    forall a | a in actions
      ensures Authorised(g, a) && !Violates(g, actions, a)
    {
      SignedIsAuthorised(g, a);
      var role := if a.signer == g.session.buyer then Buyer else Seller;
      if a.message.OfferMessage? {
        WithinIsNotOutside(g, role, a.message.quoteAmount);
      } else if a.message.AcceptMessage? {
        WithinIsNotOutside(g, role, a.message.offerHash.message.quoteAmount);
        if QuoteOf(actions, a.message.offerHash).Some? {
          forall b | b in actions
            ensures Authorised(g, b)
          {
            SignedIsAuthorised(g, b);
          }
          QuoteIsCommitted(g, actions, a.message.offerHash);
        }
      }
    }
  }

  /** A settlement implies feasibility, inside the interval, and the two utilities share out the
      whole surplus. */
  lemma SettlementSharesSurplus(g: Setting, xs: seq<Exchange.State>, ps: seq<Played>, n: nat)
    requires Run(g, xs, ps) && n <= |ps| && xs[n].settledAt.Some?
    ensures var f, u, price := FeasibilityOf(g), Utilities(g, xs[n].settledAt), xs[n].settledAt.value;
      && f.feasible
      && f.interval.value.0 <= price <= f.interval.value.1
      && u.0.value >= 0 && u.1.value >= 0
      && u.0.value + u.1.value == f.surplus.value
  {
    RunKeepsInv(g, xs, ps, n);
    var price := xs[n].settledAt.value;
    WithinIsNotOutside(g, Buyer, price);
    WithinIsNotOutside(g, Seller, price);
  }

  /** A price both mandates and both holdings allow. */
  predicate BothAllow(g: Setting, price: nat) { 1 <= price && g.Within(Buyer, price) && g.Within(Seller, price) }

  /** A run is feasible exactly when there is such a price; they are exactly the interval, and the surplus is
      its width. */
  lemma FeasibleIff(g: Setting)
    ensures var f := FeasibilityOf(g);
      && (f.feasible <==> exists price: nat :: BothAllow(g, price))
      && (f.interval.Some? <==> f.feasible) && (f.surplus.Some? <==> f.feasible)
      && (f.feasible ==>
            && (forall price: nat :: BothAllow(g, price) <==> f.interval.value.0 <= price <= f.interval.value.1)
            && f.surplus.value == f.interval.value.1 - f.interval.value.0)
  {
    var f := FeasibilityOf(g);
    if f.feasible {
      assert BothAllow(g, Bargain.Low(g));
    }
  }

  /** Whose utility is whose: a settlement one unit dearer takes that unit from the buyer and gives it to the
      seller; each has nothing left at its own end of the interval. */
  lemma UtilitiesAre(g: Setting, price: nat)
    ensures Utilities(g, None) == (None, None)
    ensures var u, dearer := Utilities(g, Some(price)), Utilities(g, Some(price + 1));
      && u.0.Some? && u.1.Some? && dearer.0.Some? && dearer.1.Some?
      && dearer.0.value == u.0.value - 1 && dearer.1.value == u.1.value + 1
    ensures FeasibilityOf(g).feasible && FeasibilityOf(g).interval.value.1 == price ==>
      Utilities(g, Some(price)).0 == Some(0)
    ensures FeasibilityOf(g).feasible && FeasibilityOf(g).interval.value.0 == price ==>
      Utilities(g, Some(price)).1 == Some(0)
  {
  }
}
