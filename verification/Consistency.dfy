/** The agent's check of an observation it cannot compare with the chain: every way in which its
    parts contradict one another or the session it approved. */
module Consistency {
  import opened Common
  import opened Protocol

  datatype Problem =
    | EntrySequence(i: nat) | EntryKind(i: nat) | EntryActor(i: nat) | EntryFields(i: nat)
    | EntryDigest(i: nat) | EntryStatus(i: nat)
    | HistoryTooLong | ExpectedSequenceWrong | RemainingWrong | ActiveOfferWrong

  function Turn(i: nat): Role { if i % 2 == 0 then Buyer else Seller }

  predicate DigestMatches(s: Session, sequence: nat, proposer: Address, quote: nat, validUntil: nat, hash: Digest) {
    validUntil <= UINT64_MAX &&
    hash == HashOf(s.Domain(), OfferMessage(s.sessionId, s.configHash, sequence, proposer, quote, validUntil))
  }

  function StatusOf(validUntil: nat, chainTime: nat, last: bool): OfferStatus {
    if !last then Replaced else if validUntil > chainTime then Active else Expired
  }

  function EntryProblems(i: nat, e: HistoryEntry, count: nat, chainTime: nat, s: Session): set<Problem> {
    if e.sequence != i + 1 then {EntrySequence(i)}
    else if !e.kind.OfferKind? then {EntryKind(i)}
    else if e.actor != Party(Turn(i)) then {EntryActor(i)}
    else if e.quoteAmount.None? || e.validUntil.None? || e.offerHash.None? || e.status.None? then {EntryFields(i)}
    else
      (if DigestMatches(s, e.sequence, s.Party(Turn(i)), e.quoteAmount.value, e.validUntil.value, e.offerHash.value)
       then {} else {EntryDigest(i)})
      + (if e.status.value == StatusOf(e.validUntil.value, chainTime, i + 1 == count) then {} else {EntryStatus(i)})
  }

  function ActiveProblems(o: Observation): set<Problem> {
    var n := |o.history|;
    var standing := n > 0 && o.history[n - 1].validUntil.Some? && o.history[n - 1].validUntil.value > o.chainTime;
    if o.active.None? then (if standing then {ActiveOfferWrong} else {})
    else if !standing then {ActiveOfferWrong}
    else
      var last, active := o.history[n - 1], o.active.value;
      if last.offerHash == Some(active.offerHash) && last.actor == Party(active.proposer)
         && last.quoteAmount == Some(active.quoteAmount) && last.validUntil == Some(active.validUntil)
         && last.sequence == active.sequence
      then {} else {ActiveOfferWrong}
  }

  function HistoryProblems(o: Observation, n: nat, s: Session): set<Problem>
    requires n <= |o.history|
  {
    if n == 0 then {}
    else HistoryProblems(o, n - 1, s) + EntryProblems(n - 1, o.history[n - 1], |o.history|, o.chainTime, s)
  }

  function Contradictions(o: Observation, s: Session): set<Problem> {
    HistoryProblems(o, |o.history|, s)
    + (if |o.history| > o.session.maxOffers then {HistoryTooLong} else {})
    + (if o.expectedSequence != |o.history| + 1 then {ExpectedSequenceWrong} else {})
    + (if o.offersRemaining != Max(Opportunities(o.role, o.session.maxOffers) - OwnOffersRecorded(o.history, o.role), 0)
       then {RemainingWrong} else {})
    + ActiveProblems(o)
  }

  /** The check as it runs, adding to one collection of problems. */
  method Check(o: Observation, s: Session) returns (problems: set<Problem>)
    ensures problems == Contradictions(o, s)
  {
    problems := {};
    for i := 0 to |o.history|
      invariant problems == HistoryProblems(o, i, s)
    {
      problems := problems + EntryProblems(i, o.history[i], |o.history|, o.chainTime, s);
    }
    if |o.history| > o.session.maxOffers {
      problems := problems + {HistoryTooLong};
    }
    if o.expectedSequence != |o.history| + 1 {
      problems := problems + {ExpectedSequenceWrong};
    }
    var own: int, share: int := OwnOffersRecorded(o.history, o.role), Opportunities(o.role, o.session.maxOffers);
    if o.offersRemaining != Max(share - own, 0) {
      problems := problems + {RemainingWrong};
    }
    problems := problems + ActiveProblems(o);
  }

  lemma {:induction false} NoHistoryProblemsIff(o: Observation, n: nat, s: Session)
    requires n <= |o.history|
    ensures HistoryProblems(o, n, s) == {} <==>
            forall i | 0 <= i < n :: EntryProblems(i, o.history[i], |o.history|, o.chainTime, s) == {}
  {
    if n > 0 {
      NoHistoryProblemsIff(o, n - 1, s);
    }
  }
}
