/** A settlement's receipt, checked twice: by the indexer, which compares multisets of transfers, and
    by the reconstruction tool, which counts each leg. Replayed on a ledger, what they accept moves
    exactly the two legs. */
module Settlement {
  import opened Common
  import opened Protocol

  datatype Body =
    | AcceptanceRecorded
    | SettlementCompleted(quoteAmount: nat)
    | TransferBody(sender: Address, recipient: Address, amount: nat)
    | OtherBody

  /** One log of a receipt: its emitter and what it decodes to. */
  datatype Log = Log(address: Address, body: Body)

  datatype Receipt = Receipt(succeeded: bool, logs: seq<Log>)

  datatype Manifest = Manifest(exchange: Address, base: Address, quote: Address)

  datatype Transfer = Transfer(token: Address, sender: Address, recipient: Address, amount: int)

  /** What the session says must move. */
  datatype Terms = Terms(buyer: Address, seller: Address, baseAmount: nat)

  function QuoteLeg(m: Manifest, t: Terms, quote: int): Transfer { Transfer(m.quote, t.buyer, t.seller, quote) }

  function BaseLeg(m: Manifest, t: Terms): Transfer { Transfer(m.base, t.seller, t.buyer, t.baseAmount) }

  // ---------------------------------------------------------------------------------------------
  // The indexer's check
  // ---------------------------------------------------------------------------------------------

  datatype EventName = AcceptanceName | CompletionName

  predicate Named(m: Manifest, name: EventName, log: Log) {
    log.address == m.exchange &&
    match name
    case AcceptanceName => log.body.AcceptanceRecorded?
    case CompletionName => log.body.SettlementCompleted?
  }

  predicate IsTransfer(m: Manifest, log: Log) { log.address in {m.base, m.quote} && log.body.TransferBody? }

  function TransfersOf(m: Manifest, logs: seq<Log>): seq<Transfer> {
    if logs == [] then []
    else
      var last := logs[|logs| - 1];
      TransfersOf(m, logs[..|logs| - 1])
      + if IsTransfer(m, last)
        then [Transfer(last.address, last.body.sender, last.body.recipient, last.body.amount)] else []
  }

  datatype Problem = Reverted | WrongCount(name: EventName) | NothingSigned | AnnouncedOtherAmount | OtherTransfers

  /** Exactly one log of the receipt is this event. */
  ghost predicate ExactlyOne(m: Manifest, name: EventName, logs: seq<Log>) {
    exists i | 0 <= i < |logs| :: OnlyAt(m, name, logs, i)
  }

  ghost predicate OnlyAt(m: Manifest, name: EventName, logs: seq<Log>, i: nat)
    requires i < |logs|
  {
    Named(m, name, logs[i]) && forall j | 0 <= j < |logs| && j != i :: !Named(m, name, logs[j])
  }

  ghost predicate OnlyTheLegs(m: Manifest, t: Terms, logs: seq<Log>, quote: int) {
    multiset(TransfersOf(m, logs)) == multiset{QuoteLeg(m, t, quote), BaseLeg(m, t)}
  }

  /** No completion announces anything but the signed amount. */
  ghost predicate Announces(m: Manifest, logs: seq<Log>, quote: int) {
    forall log | log in logs && Named(m, CompletionName, log) :: log.body.quoteAmount == quote
  }

  /** A settlement as it should be: mined, accepted and completed once each, announcing the amount
      that was signed, and moving the two legs and nothing else. */
  ghost predicate SettledAsSigned(m: Manifest, t: Terms, r: Receipt, signed: Option<nat>) {
    && r.succeeded && signed.Some?
    && ExactlyOne(m, AcceptanceName, r.logs) && ExactlyOne(m, CompletionName, r.logs)
    && Announces(m, r.logs, signed.value)
    && OnlyTheLegs(m, t, r.logs, signed.value)
  }

  function Listed(first: bool, p: Problem, second: bool, q: Problem, third: bool, r: Problem): seq<Problem> {
    (if first then [] else [p]) + (if second then [] else [q]) + (if third then [] else [r])
  }

  /** The first completion in the receipt, if there is one, announces this amount. */
  ghost predicate FirstAnnounces(m: Manifest, logs: seq<Log>, quote: int) {
    forall i | 0 <= i < |logs| && FirstCompletion(m, logs, i) :: logs[i].body.quoteAmount == quote
  }

  ghost predicate FirstCompletion(m: Manifest, logs: seq<Log>, i: nat)
    requires i < |logs|
  {
    Named(m, CompletionName, logs[i]) && forall j | 0 <= j < i :: !Named(m, CompletionName, logs[j])
  }

  /** Exactly when the check lists each problem. With nothing signed there is no amount: any completion
      announces another and no transfers are the legs. */
  ghost predicate Lists(m: Manifest, t: Terms, r: Receipt, signed: Option<nat>, p: Problem) {
    match p
    case Reverted => !r.succeeded
    case WrongCount(name) => !ExactlyOne(m, name, r.logs)
    case NothingSigned => signed.None?
    case AnnouncedOtherAmount =>
      (match signed
       case Some(quote) => !FirstAnnounces(m, r.logs, quote)
       case None => exists i :: 0 <= i < |r.logs| && FirstCompletion(m, r.logs, i))
    case OtherTransfers =>
      (match signed case Some(quote) => !OnlyTheLegs(m, t, r.logs, quote) case None => true)
  }

  /** Every problem the receipt has and no other, each once and in this order; none exactly for a settlement
      as it was signed. */
  method CheckSettlement(m: Manifest, t: Terms, r: Receipt, signed: Option<nat>) returns (problems: seq<Problem>)
    ensures problems == ReceiptProblems(m, r)
                        + Listed(signed.Some?, NothingSigned, FirstAnnounces(m, r.logs, HeldAmount(signed)),
                                 AnnouncedOtherAmount, OnlyTheLegs(m, t, r.logs, HeldAmount(signed)), OtherTransfers)
    ensures forall p :: p in problems <==> Lists(m, t, r, signed, p)
    ensures problems == [] <==> SettledAsSigned(m, t, r, signed)
  {
    var first;
    problems, first := CheckEvents(m, r);
    var amounts := CheckAmounts(m, t, r, signed, first);
    problems := problems + amounts;
    forall p
      ensures p in problems <==> Lists(m, t, r, signed, p)
    {
      ListsIff(m, t, r, signed, p);
    }
    NoneListedIff(m, t, r, signed);
  }

  method CheckAmounts(m: Manifest, t: Terms, r: Receipt, signed: Option<nat>, first: Option<nat>)
    returns (problems: seq<Problem>)
    requires IsFirst(m, r.logs, first)
    ensures problems == Listed(signed.Some?, NothingSigned, FirstAnnounces(m, r.logs, HeldAmount(signed)),
                               AnnouncedOtherAmount, OnlyTheLegs(m, t, r.logs, HeldAmount(signed)), OtherTransfers)
  {
    var quote := HeldAmount(signed);
    var announced := first.None? || first.value == quote;
    var transfers := CollectTransfers(m, r.logs);
    var moved := transfers == multiset{QuoteLeg(m, t, quote), BaseLeg(m, t)};
    FirstAnnouncesIff(m, r.logs, first, quote);
    problems := List(signed.Some?, NothingSigned, announced, AnnouncedOtherAmount, moved, OtherTransfers);
  }

  method List(first: bool, p: Problem, second: bool, q: Problem, third: bool, r: Problem)
    returns (problems: seq<Problem>)
    ensures problems == Listed(first, p, second, q, third, r)
  {
    problems := [];
    if !first {
      problems := problems + [p];
    }
    if !second {
      problems := problems + [q];
    }
    if !third {
      problems := problems + [r];
    }
  }

  lemma FirstAnnouncesIff(m: Manifest, logs: seq<Log>, first: Option<nat>, quote: int)
    requires IsFirst(m, logs, first)
    ensures FirstAnnounces(m, logs, quote) <==> first.None? || first.value == quote
  {
    if first.Some? {
      var i :| 0 <= i < |logs| && FirstCompletion(m, logs, i) && logs[i].body.quoteAmount == first.value;
      assert forall j | 0 <= j < |logs| && FirstCompletion(m, logs, j) :: j == i;
    }
  }

  /** The one amount a quote leg may carry; negative, and so no transfer's amount, where nothing was signed. */
  function HeldAmount(signed: Option<nat>): int { if signed.Some? then signed.value else -1 }

  lemma {:induction false} AmountsAreNat(m: Manifest, logs: seq<Log>)
    ensures forall x | x in TransfersOf(m, logs) :: x.amount >= 0
  {
    if logs != [] {
      AmountsAreNat(m, logs[..|logs| - 1]);
    }
  }

  /** With nothing signed, whatever moved is refused. */
  lemma NothingSignedIsRefused(m: Manifest, t: Terms, logs: seq<Log>)
    ensures !OnlyTheLegs(m, t, logs, -1)
  {
    AmountsAreNat(m, logs);
    var leg := QuoteLeg(m, t, -1);
    assert leg !in TransfersOf(m, logs);
    assert multiset{leg, BaseLeg(m, t)}[leg] > 0;
  }

  /** No amount announced is that of nothing signed. */
  lemma NothingIsAnnounced(m: Manifest, logs: seq<Log>)
    ensures FirstAnnounces(m, logs, -1) <==> !exists i :: 0 <= i < |logs| && FirstCompletion(m, logs, i)
  {
    if i :| 0 <= i < |logs| && FirstCompletion(m, logs, i) {
      assert logs[i].body.quoteAmount != -1;
    }
  }

  lemma ListsIff(m: Manifest, t: Terms, r: Receipt, signed: Option<nat>, p: Problem)
    ensures p in ReceiptProblems(m, r)
                 + Listed(signed.Some?, NothingSigned, FirstAnnounces(m, r.logs, HeldAmount(signed)),
                          AnnouncedOtherAmount, OnlyTheLegs(m, t, r.logs, HeldAmount(signed)), OtherTransfers)
            <==> Lists(m, t, r, signed, p)
  {
    ListedHolds(signed.Some?, NothingSigned, FirstAnnounces(m, r.logs, HeldAmount(signed)), AnnouncedOtherAmount,
                OnlyTheLegs(m, t, r.logs, HeldAmount(signed)), OtherTransfers, p);
    ListedHolds(r.succeeded, Reverted, ExactlyOne(m, AcceptanceName, r.logs), WrongCount(AcceptanceName),
                ExactlyOne(m, CompletionName, r.logs), WrongCount(CompletionName), p);
    NothingSignedIsRefused(m, t, r.logs);
    NothingIsAnnounced(m, r.logs);
    if p.WrongCount? {
      assert p == WrongCount(AcceptanceName) || p == WrongCount(CompletionName) by {
        assert p.name.AcceptanceName? || p.name.CompletionName?;
      }
    } else {
      assert p in {Reverted, NothingSigned, AnnouncedOtherAmount, OtherTransfers};
    }
  }

  lemma ListedHolds(first: bool, p: Problem, second: bool, q: Problem, third: bool, r: Problem, x: Problem)
    ensures x in Listed(first, p, second, q, third, r) <==>
      (!first && x == p) || (!second && x == q) || (!third && x == r)
  {
  }

  lemma NoneListedIff(m: Manifest, t: Terms, r: Receipt, signed: Option<nat>)
    ensures ReceiptProblems(m, r)
            + Listed(signed.Some?, NothingSigned, FirstAnnounces(m, r.logs, HeldAmount(signed)),
                     AnnouncedOtherAmount, OnlyTheLegs(m, t, r.logs, HeldAmount(signed)), OtherTransfers) == []
            <==> SettledAsSigned(m, t, r, signed)
  {
    if signed.Some? && ExactlyOne(m, CompletionName, r.logs) {
      TheOneAnnounces(m, r.logs, signed.value);
    }
  }

  ghost function ReceiptProblems(m: Manifest, r: Receipt): seq<Problem> {
    Listed(r.succeeded, Reverted, ExactlyOne(m, AcceptanceName, r.logs), WrongCount(AcceptanceName),
           ExactlyOne(m, CompletionName, r.logs), WrongCount(CompletionName))
  }

  method CheckEvents(m: Manifest, r: Receipt) returns (problems: seq<Problem>, first: Option<nat>)
    ensures problems == ReceiptProblems(m, r)
    ensures IsFirst(m, r.logs, first)
  {
    var acceptances, completions;
    acceptances, completions, first := CountEvents(m, r.logs);
    OneIsExactlyOne(m, AcceptanceName, r.logs);
    OneIsExactlyOne(m, CompletionName, r.logs);
    problems := List(r.succeeded, Reverted, acceptances == 1, WrongCount(AcceptanceName),
                     completions == 1, WrongCount(CompletionName));
  }

  lemma TheOneAnnounces(m: Manifest, logs: seq<Log>, quote: int)
    requires ExactlyOne(m, CompletionName, logs)
    ensures Announces(m, logs, quote) <==> FirstAnnounces(m, logs, quote)
  {
    var i :| 0 <= i < |logs| && OnlyAt(m, CompletionName, logs, i);
    assert logs[i] in logs && FirstCompletion(m, logs, i);
  }

  /** The first completion's announced amount, none when there is no completion. */
  ghost predicate IsFirst(m: Manifest, logs: seq<Log>, first: Option<nat>) {
    if first.None? then forall i | 0 <= i < |logs| :: !Named(m, CompletionName, logs[i])
    else exists i :: 0 <= i < |logs| && FirstCompletion(m, logs, i) && logs[i].body.quoteAmount == first.value
  }

  lemma FirstStays(m: Manifest, logs: seq<Log>, log: Log, first: Option<nat>)
    requires IsFirst(m, logs, first)
    ensures IsFirst(m, logs + [log],
                    if first.None? && Named(m, CompletionName, log) then Some(log.body.quoteAmount) else first)
  {
    var more := logs + [log];
    assert forall j | 0 <= j < |logs| :: more[j] == logs[j];
    if first.Some? {
      var i :| 0 <= i < |logs| && FirstCompletion(m, logs, i) && logs[i].body.quoteAmount == first.value;
      assert FirstCompletion(m, more, i);
    } else if Named(m, CompletionName, log) {
      assert FirstCompletion(m, more, |logs|);
    }
  }

  method CountEvents(m: Manifest, logs: seq<Log>) returns (acceptances: nat, completions: nat, first: Option<nat>)
    ensures acceptances == Count(m, AcceptanceName, logs) && completions == Count(m, CompletionName, logs)
    ensures IsFirst(m, logs, first)
  {
    acceptances, completions, first := 0, 0, None;
    for i := 0 to |logs|
      invariant acceptances == Count(m, AcceptanceName, logs[..i]) && completions == Count(m, CompletionName, logs[..i])
      invariant IsFirst(m, logs[..i], first)
    {
      var log := logs[i];
      assert logs[..i + 1][..i] == logs[..i];
      assert logs[..i + 1] == logs[..i] + [log];
      FirstStays(m, logs[..i], log, first);
      if Named(m, AcceptanceName, log) {
        acceptances := acceptances + 1;
      }
      if Named(m, CompletionName, log) {
        completions := completions + 1;
        if first.None? {
          first := Some(log.body.quoteAmount);
        }
      }
    }
    assert logs[..|logs|] == logs;
  }

  method CollectTransfers(m: Manifest, logs: seq<Log>) returns (transfers: multiset<Transfer>)
    ensures transfers == multiset(TransfersOf(m, logs))
  {
    transfers := multiset{};
    for i := 0 to |logs|
      invariant transfers == multiset(TransfersOf(m, logs[..i]))
    {
      var log := logs[i];
      assert logs[..i + 1][..i] == logs[..i];
      if IsTransfer(m, log) {
        transfers := transfers + multiset{Transfer(log.address, log.body.sender, log.body.recipient, log.body.amount)};
      }
    }
    assert logs[..|logs|] == logs;
  }

  function Count(m: Manifest, name: EventName, logs: seq<Log>): nat {
    if logs == [] then 0 else Count(m, name, logs[..|logs| - 1]) + if Named(m, name, logs[|logs| - 1]) then 1 else 0
  }

  lemma {:induction false} ZeroIsNone(m: Manifest, name: EventName, logs: seq<Log>)
    ensures Count(m, name, logs) == 0 <==> forall i | 0 <= i < |logs| :: !Named(m, name, logs[i])
  {
    if logs != [] {
      ZeroIsNone(m, name, logs[..|logs| - 1]);
      assert forall i | 0 <= i < |logs| - 1 :: logs[..|logs| - 1][i] == logs[i];
    }
  }

  lemma {:induction false} OneIsExactlyOne(m: Manifest, name: EventName, logs: seq<Log>)
    ensures Count(m, name, logs) == 1 <==> ExactlyOne(m, name, logs)
  {
    if logs != [] {
      var n, before := |logs| - 1, logs[..|logs| - 1];
      assert forall i | 0 <= i < n :: before[i] == logs[i];
      OneIsExactlyOne(m, name, before);
      ZeroIsNone(m, name, before);
      if Named(m, name, logs[n]) {
        assert OnlyAt(m, name, logs, n) <==> Count(m, name, before) == 0;
      } else {
        assert forall i | 0 <= i < n :: OnlyAt(m, name, before, i) <==> OnlyAt(m, name, logs, i);
      }
    }
  }

  // ---------------------------------------------------------------------------------------------
  // An ordinary settlement
  // ---------------------------------------------------------------------------------------------

  /** The two transfers of an ordinary settlement. */
  function LegLogs(m: Manifest, t: Terms, quote: nat): seq<Log> {
    [Log(m.quote, TransferBody(t.buyer, t.seller, quote)), Log(m.base, TransferBody(t.seller, t.buyer, t.baseAmount))]
  }

  lemma TransfersOfNext(m: Manifest, logs: seq<Log>, log: Log)
    ensures TransfersOf(m, logs + [log])
         == TransfersOf(m, logs)
            + if IsTransfer(m, log)
              then [Transfer(log.address, log.body.sender, log.body.recipient, log.body.amount)] else []
  {
    assert (logs + [log])[..|logs|] == logs;
  }

  /** After whatever moved nothing, the two transfers are the legs. */
  lemma LegsAfter(m: Manifest, t: Terms, quote: nat, before: seq<Log>)
    requires TransfersOf(m, before) == []
    ensures OnlyTheLegs(m, t, before + LegLogs(m, t, quote), quote)
  {
    var legs := LegLogs(m, t, quote);
    TransfersOfNext(m, before, legs[0]);
    TransfersOfNext(m, before + [legs[0]], legs[1]);
    assert before + [legs[0]] + [legs[1]] == before + legs;
    assert TransfersOf(m, before + legs) == [QuoteLeg(m, t, quote), BaseLeg(m, t)];
  }

  lemma LegLogsMoveTheLegs(m: Manifest, t: Terms, quote: nat)
    ensures OnlyTheLegs(m, t, LegLogs(m, t, quote), quote)
  {
    LegsAfter(m, t, quote, []);
    assert [] + LegLogs(m, t, quote) == LegLogs(m, t, quote);
  }

  /** What the exchange emits of its own: some other event, the acceptance and the completion. */
  function EventLogs(m: Manifest, quote: nat): seq<Log> {
    [Log(m.exchange, OtherBody), Log(m.exchange, AcceptanceRecorded), Log(m.exchange, SettlementCompleted(quote))]
  }

  lemma EventsMoveNothing(m: Manifest, quote: nat)
    ensures TransfersOf(m, EventLogs(m, quote)) == []
  {
    var logs := EventLogs(m, quote);
    TransfersOfNext(m, [], logs[0]);
    TransfersOfNext(m, [logs[0]], logs[1]);
    TransfersOfNext(m, [logs[0], logs[1]], logs[2]);
    assert [] + [logs[0]] == [logs[0]] && [logs[0]] + [logs[1]] == [logs[0], logs[1]];
    assert [logs[0], logs[1]] + [logs[2]] == logs;
  }

  /** A mined receipt of those events and the two transfers is a settlement as it was signed, whatever the
      addresses. */
  lemma OrdinaryIsSettled(m: Manifest, t: Terms, quote: nat)
    ensures SettledAsSigned(m, t, Receipt(true, EventLogs(m, quote) + LegLogs(m, t, quote)), Some(quote))
  {
    var logs := EventLogs(m, quote) + LegLogs(m, t, quote);
    EventsMoveNothing(m, quote);
    LegsAfter(m, t, quote, EventLogs(m, quote));
    assert OnlyAt(m, AcceptanceName, logs, 1) && OnlyAt(m, CompletionName, logs, 2);
  }
}
