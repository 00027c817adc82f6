/** The reconstruction tool's own check of a settlement's transfers, leg by leg, and what replaying
    accepted logs does to a ledger. */
module Reconstruction {
  import opened Common
  import opened Protocol
  import opened Settlement

  // ---------------------------------------------------------------------------------------------
  // Counting the legs
  // ---------------------------------------------------------------------------------------------

  function TransfersBy(token: Address, logs: seq<Log>): seq<Transfer> {
    if logs == [] then []
    else
      var last := logs[|logs| - 1];
      TransfersBy(token, logs[..|logs| - 1])
      + if last.address == token && last.body.TransferBody?
        then [Transfer(token, last.body.sender, last.body.recipient, last.body.amount)] else []
  }

  datatype CheckName =
    | AmountSigned | AmountAnnounced | QuoteLegMoved | BaseLegMoved | NothingElseMoved
    | ManifestOnly | DigestRecorded

  datatype RecordedCheck = RecordedCheck(name: CheckName, passed: bool)

  /** The offers rebuilt from calldata: digest and signed amount. */
  datatype SignedOffer = SignedOffer(digest: Digest, quoteAmount: nat)

  function OfferWith(offers: seq<SignedOffer>, digest: Digest): Option<SignedOffer> {
    if offers == [] then None
    else if offers[0].digest == digest then Some(offers[0])
    else OfferWith(offers[1..], digest)
  }

  function HeldTo(signed: Option<SignedOffer>, announced: nat): nat {
    if signed.Some? then signed.value.quoteAmount else announced
  }

  /** One transfer of each token, each exactly its leg. */
  predicate LegsCounted(m: Manifest, t: Terms, logs: seq<Log>, quote: nat) {
    && multiset(TransfersBy(m.quote, logs))[QuoteLeg(m, t, quote)] == 1
    && multiset(TransfersBy(m.base, logs))[BaseLeg(m, t)] == 1
    && |TransfersBy(m.quote, logs)| == 1 && |TransfersBy(m.base, logs)| == 1
  }

  class Reconstructor {
    var checks: seq<RecordedCheck>

    constructor ()
      ensures checks == []
    {
      checks := [];
    }

    method Record(name: CheckName, passed: bool)
      modifies this
      ensures checks == old(checks) + [RecordedCheck(name, passed)]
    {
      checks := checks + [RecordedCheck(name, passed)];
    }

    method CheckSettlementTransfers(m: Manifest, t: Terms, logs: seq<Log>, offers: seq<SignedOffer>,
                                    accepted: Digest, announced: nat)
      modifies this
      ensures var signed := OfferWith(offers, accepted);
        checks == old(checks) + LegChecks(m, t, logs, HeldTo(signed, announced), signed, announced)
                  + [RecordedCheck(ManifestOnly,
                                   forall log | log in logs :: log.address in {m.exchange, m.base, m.quote}),
                     RecordedCheck(DigestRecorded, signed.Some?)]
    {
      var signed := OfferWith(offers, accepted);
      CheckLegs(m, t, logs, HeldTo(signed, announced), signed, announced);
      Record(ManifestOnly, forall log | log in logs :: log.address in {m.exchange, m.base, m.quote});
      Record(DigestRecorded, signed.Some?);
    }

    method CheckLegs(m: Manifest, t: Terms, logs: seq<Log>, quote: nat, signed: Option<SignedOffer>, announced: nat)
      modifies this
      ensures checks == old(checks) + LegChecks(m, t, logs, quote, signed, announced)
    {
      var quoteTransfers, quoteLegs := CountTransfers(m.quote, logs, QuoteLeg(m, t, quote));
      var baseTransfers, baseLegs := CountTransfers(m.base, logs, BaseLeg(m, t));
      RecordLegs(signed.Some?, signed.None? || announced == signed.value.quoteAmount, quoteLegs == 1, baseLegs == 1,
                 quoteTransfers == 1 && baseTransfers == 1);
    }

    method RecordLegs(signed: bool, announced: bool, quoteLeg: bool, baseLeg: bool, nothingElse: bool)
      modifies this
      ensures checks == old(checks) + FiveChecks(signed, announced, quoteLeg, baseLeg, nothingElse)
    {
      Record(AmountSigned, signed);
      Record(AmountAnnounced, announced);
      Record(QuoteLegMoved, quoteLeg);
      Record(BaseLegMoved, baseLeg);
      Record(NothingElseMoved, nothingElse);
    }
  }

  function FiveChecks(signed: bool, announced: bool, quoteLeg: bool, baseLeg: bool, nothingElse: bool)
    : seq<RecordedCheck>
  {
    [RecordedCheck(AmountSigned, signed), RecordedCheck(AmountAnnounced, announced),
     RecordedCheck(QuoteLegMoved, quoteLeg),
     RecordedCheck(BaseLegMoved, baseLeg), RecordedCheck(NothingElseMoved, nothingElse)]
  }

  /** What the five checks on the legs record. */
  function LegChecks(m: Manifest, t: Terms, logs: seq<Log>, quote: nat, signed: Option<SignedOffer>, announced: nat)
    : seq<RecordedCheck>
  {
    FiveChecks(signed.Some?, signed.None? || announced == signed.value.quoteAmount,
          multiset(TransfersBy(m.quote, logs))[QuoteLeg(m, t, quote)] == 1,
          multiset(TransfersBy(m.base, logs))[BaseLeg(m, t)] == 1,
          |TransfersBy(m.quote, logs)| == 1 && |TransfersBy(m.base, logs)| == 1)
  }

  /** What the tool's transfer checks come to: all five pass exactly when the settled digest was signed, for
      the amount announced, and the legs and nothing else of either token moved, at the signed amount. */
  lemma LegChecksPassIff(m: Manifest, t: Terms, logs: seq<Log>, signed: Option<SignedOffer>, announced: nat)
    ensures var checks := LegChecks(m, t, logs, HeldTo(signed, announced), signed, announced);
      (forall c | c in checks :: c.passed) <==>
      signed.Some? && signed.value.quoteAmount == announced && LegsCounted(m, t, logs, signed.value.quoteAmount)
  {
    var checks := LegChecks(m, t, logs, HeldTo(signed, announced), signed, announced);
    assert checks[0] in checks && checks[1] in checks && checks[2] in checks;
    assert checks[3] in checks && checks[4] in checks;
  }

  /** Which check each is: what it passes on, whatever else fails. */
  lemma LegCheckIs(m: Manifest, t: Terms, logs: seq<Log>, signed: Option<SignedOffer>, announced: nat, c: RecordedCheck)
    requires c in LegChecks(m, t, logs, HeldTo(signed, announced), signed, announced)
    ensures var quote := match signed case Some(offer) => offer.quoteAmount case None => announced;
      c.passed <==>
      match c.name
      case AmountSigned => signed.Some?
      case AmountAnnounced => signed.None? || signed.value.quoteAmount == announced
      case QuoteLegMoved => multiset(TransfersBy(m.quote, logs))[Transfer(m.quote, t.buyer, t.seller, quote)] == 1
      case BaseLegMoved => multiset(TransfersBy(m.base, logs))[Transfer(m.base, t.seller, t.buyer, t.baseAmount)] == 1
      case NothingElseMoved => |TransfersBy(m.quote, logs)| == 1 && |TransfersBy(m.base, logs)| == 1
      case _ => false
  {
    FiveCheckIs(signed.Some?, signed.None? || announced == signed.value.quoteAmount,
                multiset(TransfersBy(m.quote, logs))[QuoteLeg(m, t, HeldTo(signed, announced))] == 1,
                multiset(TransfersBy(m.base, logs))[BaseLeg(m, t)] == 1,
                |TransfersBy(m.quote, logs)| == 1 && |TransfersBy(m.base, logs)| == 1, c);
  }

  lemma FiveCheckIs(signed: bool, announced: bool, quoteLeg: bool, baseLeg: bool, nothingElse: bool, c: RecordedCheck)
    requires c in FiveChecks(signed, announced, quoteLeg, baseLeg, nothingElse)
    ensures c.passed <==>
      match c.name
      case AmountSigned => signed
      case AmountAnnounced => announced
      case QuoteLegMoved => quoteLeg
      case BaseLegMoved => baseLeg
      case NothingElseMoved => nothingElse
      case _ => false
    ensures c.name !in {ManifestOnly, DigestRecorded}
  {
  }

  /** An offer is found exactly when one carries the digest: the first that does. */
  lemma {:induction false} OfferFound(offers: seq<SignedOffer>, digest: Digest)
    ensures match OfferWith(offers, digest)
      case None => forall o | o in offers :: o.digest != digest
      case Some(found) => exists i :: 0 <= i < |offers| && offers[i] == found && found.digest == digest
                                      && forall j | 0 <= j < i :: offers[j].digest != digest
  {
    if offers != [] && offers[0].digest != digest {
      OfferFound(offers[1..], digest);
      if OfferWith(offers, digest).Some? {
        var i :| 0 <= i < |offers[1..]| && offers[1..][i] == OfferWith(offers, digest).value
          && forall j | 0 <= j < i :: offers[1..][j].digest != digest;
        assert offers[i + 1] == offers[1..][i];
        assert forall j | 1 <= j < i + 1 :: offers[j] == offers[1..][j - 1];
      }
    }
  }

  /** One token's own transfers, and how many of them are exactly `leg`. */
  method CountTransfers(token: Address, logs: seq<Log>, leg: Transfer) returns (all: nat, legs: nat)
    ensures all == |TransfersBy(token, logs)| && legs == multiset(TransfersBy(token, logs))[leg]
  {
    all, legs := 0, 0;
    for i := 0 to |logs|
      invariant all == |TransfersBy(token, logs[..i])| && legs == multiset(TransfersBy(token, logs[..i]))[leg]
    {
      assert logs[..i + 1][..i] == logs[..i];
      var log := logs[i];
      if log.address == token && log.body.TransferBody? {
        all := all + 1;
        if Transfer(token, log.body.sender, log.body.recipient, log.body.amount) == leg {
          legs := legs + 1;
        }
      }
    }
    assert logs[..|logs|] == logs;
  }

  // ---------------------------------------------------------------------------------------------
  // The two checks agree
  // ---------------------------------------------------------------------------------------------

  lemma {:induction false} SplitByToken(m: Manifest, logs: seq<Log>)
    requires m.base != m.quote
    ensures multiset(TransfersOf(m, logs)) == multiset(TransfersBy(m.quote, logs)) + multiset(TransfersBy(m.base, logs))
  {
    if logs != [] {
      SplitByToken(m, logs[..|logs| - 1]);
    }
  }

  lemma {:induction false} TokenOf(token: Address, logs: seq<Log>)
    ensures forall x | x in TransfersBy(token, logs) :: x.token == token
  {
    if logs != [] {
      TokenOf(token, logs[..|logs| - 1]);
    }
  }

  lemma TwoSingletons<T>(q: seq<T>, b: seq<T>, x: T, y: T)
    requires x !in b && y !in q && x != y && multiset(q) + multiset(b) == multiset{x, y}
    ensures q == [x] && b == [y]
  {
    assert multiset(q)[x] == (multiset(q) + multiset(b))[x] == 1;
    assert multiset(b)[y] == (multiset(q) + multiset(b))[y] == 1;
    assert x in q && y in b;
    assert |q| + |b| == |multiset(q) + multiset(b)| == 2;
  }

  lemma Singleton<T>(q: seq<T>, x: T)
    requires |q| == 1 && multiset(q)[x] == 1
    ensures q == [x]
  {
    assert x in q;
  }

  /** On distinct tokens, the indexer's multiset comparison and the counted legs accept exactly the
      same logs for the same amount. */
  lemma ChecksAgree(m: Manifest, t: Terms, logs: seq<Log>, quote: nat)
    requires m.base != m.quote
    ensures OnlyTheLegs(m, t, logs, quote) <==> LegsCounted(m, t, logs, quote)
  {
    var q, b := TransfersBy(m.quote, logs), TransfersBy(m.base, logs);
    SplitByToken(m, logs);
    TokenOf(m.quote, logs);
    TokenOf(m.base, logs);
    if OnlyTheLegs(m, t, logs, quote) {
      TwoSingletons(q, b, QuoteLeg(m, t, quote), BaseLeg(m, t));
    }
    if LegsCounted(m, t, logs, quote) {
      Singleton(q, QuoteLeg(m, t, quote));
      Singleton(b, BaseLeg(m, t));
    }
  }

  /** One transfer cannot be both legs, so a pair that is one token twice never passes the tool. */
  lemma OneTokenIsNeverCounted(m: Manifest, t: Terms, logs: seq<Log>, quote: nat)
    requires m.base == m.quote && t.buyer != t.seller
    ensures !LegsCounted(m, t, logs, quote)
  {
    var q := TransfersBy(m.quote, logs);
    if |q| == 1 && multiset(q)[QuoteLeg(m, t, quote)] == 1 {
      Singleton(q, QuoteLeg(m, t, quote));
    }
  }

  lemma BothCountedAsOne(m: Manifest, t: Terms, quote: nat)
    requires m.base == m.quote
    ensures |TransfersBy(m.quote, LegLogs(m, t, quote))| == 2
  {
    var logs := LegLogs(m, t, quote);
    assert logs[..1][..0] == [] && logs[..1][0] == logs[0];
    assert |TransfersBy(m.quote, logs[..1])| == |TransfersBy(m.quote, [])| + 1;
  }

  /** The two checks accept the same logs exactly when the tokens are two. With one token in both
      roles the indexer still accepts an ordinary settlement, which the tool refuses, and where the
      parties are two the tool accepts nothing at all. */
  lemma ChecksAgreeIff(m: Manifest, t: Terms, quote: nat)
    ensures (forall logs :: OnlyTheLegs(m, t, logs, quote) <==> LegsCounted(m, t, logs, quote)) <==> m.base != m.quote
    ensures OnlyTheLegs(m, t, LegLogs(m, t, quote), quote)
    ensures m.base == m.quote && t.buyer != t.seller ==> forall logs :: !LegsCounted(m, t, logs, quote)
  {
    LegLogsMoveTheLegs(m, t, quote);
    if m.base != m.quote {
      forall logs
        ensures OnlyTheLegs(m, t, logs, quote) <==> LegsCounted(m, t, logs, quote)
      {
        ChecksAgree(m, t, logs, quote);
      }
    } else {
      BothCountedAsOne(m, t, quote);
      assert !LegsCounted(m, t, LegLogs(m, t, quote), quote);
      if t.buyer != t.seller {
        forall logs
          ensures !LegsCounted(m, t, logs, quote)
        {
          OneTokenIsNeverCounted(m, t, logs, quote);
        }
      }
    }
  }

  // ---------------------------------------------------------------------------------------------
  // Replay
  // ---------------------------------------------------------------------------------------------

  /** Balances by token and holder; whoever is missing holds nothing. */
  type Ledger = map<(Address, Address), int>

  function Holds(l: Ledger, token: Address, holder: Address): int {
    if (token, holder) in l then l[(token, holder)] else 0
  }

  function Moved(l: Ledger, x: Transfer): Ledger {
    var debited := l[(x.token, x.sender) := Holds(l, x.token, x.sender) - x.amount];
    debited[(x.token, x.recipient) := Holds(debited, x.token, x.recipient) + x.amount]
  }

  function Replayed(l: Ledger, xs: seq<Transfer>): Ledger {
    if xs == [] then l else Moved(Replayed(l, xs[..|xs| - 1]), xs[|xs| - 1])
  }

  function TotalHeld(l: Ledger, token: Address, holders: seq<Address>): int {
    if holders == [] then 0 else Holds(l, token, holders[0]) + TotalHeld(l, token, holders[1..])
  }

  predicate Distinct(holders: seq<Address>) {
    forall i, j | 0 <= i < j < |holders| :: holders[i] != holders[j]
  }

  lemma {:induction false} TotalUnchanged(l: Ledger, l': Ledger, token: Address, holders: seq<Address>)
    requires forall h | h in holders :: Holds(l', token, h) == Holds(l, token, h)
    ensures TotalHeld(l', token, holders) == TotalHeld(l, token, holders)
  {
    if holders != [] {
      TotalUnchanged(l, l', token, holders[1..]);
    }
  }

  lemma {:induction false} TotalChangedOnce(l: Ledger, l': Ledger, token: Address, holders: seq<Address>, who: Address)
    requires Distinct(holders) && who in holders
    requires forall h | h in holders && h != who :: Holds(l', token, h) == Holds(l, token, h)
    ensures TotalHeld(l', token, holders) - TotalHeld(l, token, holders) == Holds(l', token, who) - Holds(l, token, who)
  {
    if holders[0] == who {
      TotalUnchanged(l, l', token, holders[1..]);
    } else {
      TotalChangedOnce(l, l', token, holders[1..], who);
    }
  }

  /** One transfer between two of the holders conserves every token's total. */
  lemma MoveConserves(l: Ledger, x: Transfer, token: Address, holders: seq<Address>)
    requires Distinct(holders) && x.sender in holders && x.recipient in holders
    ensures TotalHeld(Moved(l, x), token, holders) == TotalHeld(l, token, holders)
  {
    if token != x.token {
      TotalUnchanged(l, Moved(l, x), token, holders);
    } else {
      var debited := l[(x.token, x.sender) := Holds(l, x.token, x.sender) - x.amount];
      TotalChangedOnce(l, debited, token, holders, x.sender);
      TotalChangedOnce(debited, Moved(l, x), token, holders, x.recipient);
    }
  }

  lemma {:induction false} ReplayConserves(l: Ledger, xs: seq<Transfer>, token: Address, holders: seq<Address>)
    requires Distinct(holders) && forall x | x in xs :: x.sender in holders && x.recipient in holders
    ensures TotalHeld(Replayed(l, xs), token, holders) == TotalHeld(l, token, holders)
  {
    if xs != [] {
      ReplayConserves(l, xs[..|xs| - 1], token, holders);
      MoveConserves(Replayed(l, xs[..|xs| - 1]), xs[|xs| - 1], token, holders);
    }
  }

  // ---------------------------------------------------------------------------------------------
  // The balance snapshots
  // ---------------------------------------------------------------------------------------------

  datatype Stage = PreSettlement | PostSettlement | OtherStage

  datatype TokenRole = Base | Quote

  datatype SnapshotKey = SnapshotKey(stage: Stage, party: Role, token: TokenRole)

  datatype Snapshot = Snapshot(key: SnapshotKey, amount: int)

  /** The amount of the last snapshot with this key. */
  function AmountOf(snapshots: seq<Snapshot>, key: SnapshotKey): Option<int> {
    if snapshots == [] then None
    else
      var last := snapshots[|snapshots| - 1];
      if last.key == key then Some(last.amount) else AmountOf(snapshots[..|snapshots| - 1], key)
  }

  /** This snapshot is of the balance, and none after it is. */
  predicate IsLast(snapshots: seq<Snapshot>, i: nat, key: SnapshotKey) {
    i < |snapshots| && snapshots[i].key == key && forall j | i < j < |snapshots| :: snapshots[j].key != key
  }

  lemma {:induction false} LastSnapshotCounts(snapshots: seq<Snapshot>, key: SnapshotKey)
    ensures match AmountOf(snapshots, key)
      case None => forall s | s in snapshots :: s.key != key
      case Some(amount) => exists i: nat | IsLast(snapshots, i, key) :: snapshots[i].amount == amount
  {
    if snapshots != [] {
      var n := |snapshots| - 1;
      LastSnapshotCounts(snapshots[..n], key);
      if snapshots[n].key != key && AmountOf(snapshots, key).Some? {
        var amount := AmountOf(snapshots, key).value;
        var i: nat :| IsLast(snapshots[..n], i, key) && snapshots[..n][i].amount == amount;
        assert forall j | i <= j < n :: snapshots[j] == snapshots[..n][j];
        assert IsLast(snapshots, i, key);
      } else if snapshots[n].key == key {
        assert IsLast(snapshots, n, key);
      }
    }
  }

  function ExpectedDelta(party: Role, token: TokenRole, baseAmount: nat, quote: nat): int {
    match (party, token)
    case (Buyer, Base) => baseAmount as int
    case (Buyer, Quote) => -(quote as int)
    case (Seller, Base) => -(baseAmount as int)
    case (Seller, Quote) => quote as int
  }

  predicate DeltaIs(snapshots: seq<Snapshot>, party: Role, token: TokenRole, baseAmount: nat, quote: nat) {
    var before := AmountOf(snapshots, SnapshotKey(PreSettlement, party, token));
    var after := AmountOf(snapshots, SnapshotKey(PostSettlement, party, token));
    before.Some? && after.Some? && after.value - before.value == ExpectedDelta(party, token, baseAmount, quote)
  }

  /** All four balances moved by the two legs. */
  predicate DeltasAreTheLegs(snapshots: seq<Snapshot>, baseAmount: nat, quote: nat) {
    && DeltaIs(snapshots, Buyer, Base, baseAmount, quote) && DeltaIs(snapshots, Buyer, Quote, baseAmount, quote)
    && DeltaIs(snapshots, Seller, Base, baseAmount, quote) && DeltaIs(snapshots, Seller, Quote, baseAmount, quote)
  }

  method DeltasMatch(snapshots: seq<Snapshot>, baseAmount: nat, quote: nat) returns (r: bool)
    ensures r <==> DeltasAreTheLegs(snapshots, baseAmount, quote)
  {
    var amounts: map<SnapshotKey, int> := map[];
    for i := 0 to |snapshots|
      invariant forall k :: (if k in amounts then Some(amounts[k]) else None) == AmountOf(snapshots[..i], k)
    {
      assert snapshots[..i + 1][..i] == snapshots[..i];
      amounts := amounts[snapshots[i].key := snapshots[i].amount];
    }
    assert snapshots[..|snapshots|] == snapshots;
    var expected := [(Buyer, Base), (Buyer, Quote), (Seller, Base), (Seller, Quote)];
    for i := 0 to |expected|
      invariant forall j | 0 <= j < i :: DeltaIs(snapshots, expected[j].0, expected[j].1, baseAmount, quote)
    {
      var (party, token) := expected[i];
      var before, after := SnapshotKey(PreSettlement, party, token), SnapshotKey(PostSettlement, party, token);
      if before !in amounts || after !in amounts
         || amounts[after] - amounts[before] != ExpectedDelta(party, token, baseAmount, quote) {
        assert !DeltaIs(snapshots, expected[i].0, expected[i].1, baseAmount, quote);
        return false;
      }
    }
    assert forall j | 0 <= j < 4 :: DeltaIs(snapshots, expected[j].0, expected[j].1, baseAmount, quote);
    assert expected[0] == (Buyer, Base) && expected[1] == (Buyer, Quote);
    assert expected[2] == (Seller, Base) && expected[3] == (Seller, Quote);
    return true;
  }

  /** The snapshots say what this ledger holds at a stage. */
  ghost predicate Taken(snapshots: seq<Snapshot>, stage: Stage, m: Manifest, t: Terms, l: Ledger) {
    forall party, token ::
      AmountOf(snapshots, SnapshotKey(stage, party, token))
      == Some(Holds(l, if token.Base? then m.base else m.quote, if party.Buyer? then t.buyer else t.seller))
  }

  lemma PairOf<T>(xs: seq<T>, a: T, b: T)
    requires multiset(xs) == multiset{a, b}
    ensures xs == [a, b] || xs == [b, a]
  {
    assert |multiset(xs)| == 2;
    assert xs == [xs[0], xs[1]];
    assert xs[0] in multiset(xs) && xs[1] in multiset(xs);
    assert multiset(xs) == multiset{xs[0], xs[1]};
    assert multiset(xs) - multiset{xs[0]} == multiset{xs[1]};
    if xs[0] == a {
      assert multiset{a, b} - multiset{a} == multiset{b};
      assert xs[1] in multiset{b};
    } else {
      assert multiset{a, b} - multiset{b} == multiset{a};
      assert xs[1] in multiset{a};
    }
  }

  lemma ReplayedTwo(l: Ledger, xs: seq<Transfer>)
    requires |xs| == 2
    ensures Replayed(l, xs) == Moved(Moved(l, xs[0]), xs[1])
  {
    assert xs[..1][..0] == [] && xs[..1][0] == xs[0];
    assert Replayed(l, xs[..1]) == Moved(Replayed(l, []), xs[0]);
  }

  lemma LegsMoved(m: Manifest, t: Terms, quote: nat, l: Ledger, xs: seq<Transfer>)
    requires m.base != m.quote && t.buyer != t.seller
    requires xs == [QuoteLeg(m, t, quote), BaseLeg(m, t)] || xs == [BaseLeg(m, t), QuoteLeg(m, t, quote)]
    ensures var l' := Replayed(l, xs);
      && (forall token, h | token !in {m.base, m.quote} || h !in {t.buyer, t.seller} ::
            Holds(l', token, h) == Holds(l, token, h))
      && Holds(l', m.base, t.buyer) == Holds(l, m.base, t.buyer) + t.baseAmount
      && Holds(l', m.base, t.seller) == Holds(l, m.base, t.seller) - t.baseAmount
      && Holds(l', m.quote, t.buyer) == Holds(l, m.quote, t.buyer) - quote
      && Holds(l', m.quote, t.seller) == Holds(l, m.quote, t.seller) + quote
  {
    ReplayedTwo(l, xs);
  }

  /** Replaying a settlement either check accepts, on any ledger: both tokens' totals are conserved
      over any holders including the parties, no one else's balance changes, and snapshots taken
      around it match the two legs. */
  lemma ReplayMovesTheLegs(m: Manifest, t: Terms, logs: seq<Log>, quote: nat, l: Ledger, holders: seq<Address>,
                           snapshots: seq<Snapshot>)
    requires m.base != m.quote && t.buyer != t.seller && OnlyTheLegs(m, t, logs, quote)
    requires Distinct(holders) && t.buyer in holders && t.seller in holders
    ensures var l' := Replayed(l, TransfersOf(m, logs));
      && (forall token :: TotalHeld(l', token, holders) == TotalHeld(l, token, holders))
      && (forall token, h | token !in {m.base, m.quote} || h !in {t.buyer, t.seller} ::
            Holds(l', token, h) == Holds(l, token, h))
      && (Taken(snapshots, PreSettlement, m, t, l) && Taken(snapshots, PostSettlement, m, t, l') ==>
            DeltasAreTheLegs(snapshots, t.baseAmount, quote))
  {
    var xs, ql, bl := TransfersOf(m, logs), QuoteLeg(m, t, quote), BaseLeg(m, t);
    PairOf(xs, ql, bl);
    forall token
      ensures TotalHeld(Replayed(l, xs), token, holders) == TotalHeld(l, token, holders)
    {
      ReplayConserves(l, xs, token, holders);
    }
    LegsMoved(m, t, quote, l, xs);
  }
}
