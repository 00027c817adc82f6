/** The typed message signed for a decision, field by field from validated state. */
module Signing {
  import opened Common
  import opened Protocol
  import opened MandateValidation

  datatype SignedAction = SignedAction(message: Message, digest: Digest, signer: Address)

  datatype SigningError = NoSession | DeadlinePassed | NotTheParty

  function ReasonCode(reason: CloseReason): (code: nat)
    ensures 1 <= code <= 3
  {
    match reason
    case TermsUnacceptable => 1
    case InventoryConstraint => 2
    case NoFurtherConcession => 3
  }

  function MessageFor(d: Decision, s: Session, sequence: nat, chainTime: nat, me: Address): Message {
    match d
    case ValidOffer(amount) =>
      OfferMessage(s.sessionId, s.configHash, sequence, me, amount, Min(chainTime + s.offerLifetime, s.expiresAt))
    case ValidAccept(hash) => AcceptMessage(s.sessionId, s.configHash, sequence, me, hash)
    case ValidWalkAway(reason) => CloseMessage(s.sessionId, s.configHash, sequence, me, ReasonCode(reason))
  }

  /** `role` and `me` are the run's own signer's. */
  function SignDecision(d: Decision, approval: Option<Session>, sequence: nat, chainTime: nat, role: Role, me: Address)
    : Result<SignedAction, SigningError>
  {
    if approval.None? then Err(NoSession)
    else if chainTime >= approval.value.expiresAt then Err(DeadlinePassed)
    else if approval.value.Party(role) != me then Err(NotTheParty)
    else
      var message := MessageFor(d, approval.value, sequence, chainTime, me);
      Ok(SignedAction(message, HashOf(approval.value.Domain(), message), me))
  }
}
