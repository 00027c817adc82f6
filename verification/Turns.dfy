/** A turn as a loop over attempts: a refused one is the next one's repair, and the first to end it
    signs once or not at all. */
module Turns {
  import opened Common
  import opened Protocol
  import opened MandateValidation

  datatype FailureCode = TimeoutFailure | BudgetExhausted | OtherFailure | RefusalFailure | RepairExhausted

  /** What an attempt meets: no time before the deadline, a policy failure, or an answer. */
  datatype Attempt =
    | NoTimeLeft
    | PolicyFails(code: FailureCode)
    | Answers(response: Response, declined: bool)

  datatype Outcome =
    | SignedOutcome(decision: Decision)
    | FailedOutcome(code: FailureCode)
    | ReleasedMeanwhile

  /** The attempt that ends the turn by itself, if one of the first `n` does. */
  predicate Ends(a: Attempt, o: Observation) { !a.Answers? || Validate(a.response, o).Accepted? }

  ghost predicate FirstToEnd(attempts: seq<Attempt>, o: Observation, i: nat) {
    i < |attempts| && Ends(attempts[i], o) && forall j | 0 <= j < i :: !Ends(attempts[j], o)
  }

  /** The loop over a turn's attempts. `open` is what the run's flag reads between the decision and
      the signature. The repairs are the feedback each attempt was given. */
  method RunTurn(attempts: seq<Attempt>, o: Observation, open: bool)
    returns (outcome: Outcome, repairs: seq<Option<Code>>)
    requires 1 <= |attempts|
    ensures 1 <= |repairs| <= |attempts| && repairs[0] == None
    ensures forall i | 1 <= i < |repairs| ::
      attempts[i - 1].Answers? && Validate(attempts[i - 1].response, o).Refused?
      && repairs[i] == Some(Validate(attempts[i - 1].response, o).code)
    ensures forall i | 0 <= i < |attempts| && FirstToEnd(attempts, o, i) ::
      && |repairs| == i + 1
      && match attempts[i]
         case NoTimeLeft => outcome == FailedOutcome(TimeoutFailure)
         case PolicyFails(code) => outcome == FailedOutcome(code)
         case Answers(response, _) =>
           outcome == if open then SignedOutcome(Validate(response, o).decision) else ReleasedMeanwhile
    ensures (forall i | 0 <= i < |attempts| :: !Ends(attempts[i], o)) ==>
      |repairs| == |attempts|
      && outcome == FailedOutcome(if attempts[|attempts| - 1].declined then RefusalFailure else RepairExhausted)
  {
    repairs := [];
    var repair: Option<Code> := None;
    for i := 0 to |attempts|
      invariant |repairs| == i && (i > 0 ==> repairs[0] == None)
      invariant i > 0 ==> !Ends(attempts[i - 1], o)
      invariant repair == if i == 0 then None else Some(RefusalOf(attempts[i - 1], o))
      invariant forall j | 0 <= j < i :: !Ends(attempts[j], o)
      invariant forall j | 1 <= j < i :: repairs[j] == Some(RefusalOf(attempts[j - 1], o))
    {
      repairs := repairs + [repair];
      match attempts[i] {
        case NoTimeLeft => return FailedOutcome(TimeoutFailure), repairs;
        case PolicyFails(code) => return FailedOutcome(code), repairs;
        case Answers(response, _) =>
          var verdict := Validate(response, o);
          if verdict.Accepted? {
            return if open then SignedOutcome(verdict.decision) else ReleasedMeanwhile, repairs;
          }
          repair := Some(verdict.code);
      }
    }
    outcome := FailedOutcome(if attempts[|attempts| - 1].declined then RefusalFailure else RepairExhausted);
  }

  function RefusalOf(a: Attempt, o: Observation): Code
    requires !Ends(a, o)
  {
    Validate(a.response, o).code
  }
}
