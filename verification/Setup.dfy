/** Session setup, decided from persisted rows alone, so that it can be interrupted anywhere and
    entered again: mints, funding, approvals, and the session itself. */
module Setup {
  import opened Common
  import opened Protocol

  datatype Token = BaseToken | QuoteToken

  /** What a transaction does, which its replacements do too. */
  datatype What = Mint(party: Role, token: Token) | Fund(party: Role) | Approve(party: Role) | Create

  /** The operator's key sends everything but a party's own approval. */
  datatype Sender = OperatorKey | WalletKey(party: Role)

  function SenderOf(w: What): Sender { if w.Approve? then WalletKey(w.party) else OperatorKey }

  datatype TxStatus = Pending | Submitted | Included | Confirmed | Finalized | Replaced | Dropped | Reverted

  predicate Gone(s: TxStatus) { s.Dropped? || s.Reverted? }

  predicate SettledTx(s: TxStatus) { s.Confirmed? || s.Finalized? }

  datatype RecordedSession = RecordedSession(id: nat, expiresAt: nat)

  /** One outbox row, with the wei it sends. Of a funding or an approval: the worst case it was
      decided for, and the wallet's balance then. */
  datatype Row = Row(what: What, nonce: nat, status: TxStatus, value: nat, worst: nat, balance: nat,
                     session: Option<RecordedSession>)

  /** The amounts to mint, and the session's length. */
  datatype Plan = Plan(buyerBase: nat, buyerQuote: nat, sellerBase: nat, sellerQuote: nat, duration: nat)
  {
    function Amount(party: Role, token: Token): nat {
      if party.Buyer? then (if token.BaseToken? then buyerBase else buyerQuote)
      else if token.BaseToken? then sellerBase else sellerQuote
    }
  }

  /** Everything but `terms` is persisted; `terms` is lost with the process, or when it is told to
      forget. */
  datatype State = State(rows: seq<Row>, session: Option<RecordedSession>, setupNonce: map<Role, nat>,
                         terms: map<Role, nat>)

  const FRESH: State := State([], None, map[Buyer := 0, Seller := 0], map[])

  // ---------------------------------------------------------------------------------------------
  // What the rows say
  // ---------------------------------------------------------------------------------------------

  predicate Failed(s: State) {
    exists i | 0 <= i < |s.rows| :: s.rows[i].status.Reverted?
  }

  predicate Sent(s: State, w: What) {
    exists i | 0 <= i < |s.rows| :: s.rows[i].what == w && !Gone(s.rows[i].status)
  }

  predicate MintSent(s: State, p: Plan, party: Role, token: Token) {
    p.Amount(party, token) == 0 || Sent(s, Mint(party, token))
  }

  predicate MintsSent(s: State, p: Plan) {
    MintSent(s, p, Buyer, BaseToken) && MintSent(s, p, Buyer, QuoteToken)
    && MintSent(s, p, Seller, BaseToken) && MintSent(s, p, Seller, QuoteToken)
  }

  /** An earlier top-up of the wallet may still be on its way. */
  predicate FundingInFlight(s: State, party: Role) {
    exists i | 0 <= i < |s.rows| ::
      s.rows[i].what == Fund(party) && !Gone(s.rows[i].status) && !s.rows[i].status.Replaced?
      && !SettledTx(s.rows[i].status)
  }

  /** Every setup row that is not gone or replaced is confirmed, and there is one. */
  predicate SetupConfirmed(s: State) {
    (exists i | 0 <= i < |s.rows| :: !s.rows[i].what.Create? && !Gone(s.rows[i].status) && !s.rows[i].status.Replaced?)
    && forall i | 0 <= i < |s.rows| && !s.rows[i].what.Create?
                  && !Gone(s.rows[i].status) && !s.rows[i].status.Replaced? ::
         SettledTx(s.rows[i].status)
  }

  /** The newest approval of the party that is not gone. */
  function Newest(rows: seq<Row>, party: Role): (r: Option<nat>)
    ensures r.Some? ==> r.value < |rows| && rows[r.value].what == Approve(party) && !Gone(rows[r.value].status)
    ensures r.Some? ==> forall j | r.value < j < |rows| :: rows[j].what != Approve(party) || Gone(rows[j].status)
    ensures r.None? ==> forall j | 0 <= j < |rows| :: rows[j].what != Approve(party) || Gone(rows[j].status)
  {
    if rows == [] then None
    else if rows[|rows| - 1].what == Approve(party) && !Gone(rows[|rows| - 1].status) then Some(|rows| - 1)
    else Newest(rows[..|rows| - 1], party)
  }

  predicate NonceIsFresh(s: State, nonce: nat) {
    forall i | 0 <= i < |s.rows| && SenderOf(s.rows[i].what).OperatorKey? :: s.rows[i].nonce != nonce
  }

  // ---------------------------------------------------------------------------------------------
  // What the driver does
  // ---------------------------------------------------------------------------------------------

  /** What an approval step meets: the terms quoted now, the raised ones of a stuck approval, the
      wallet's balance, the agent's answer, and whether a crash comes before the wallet's nonce is
      recorded. */
  datatype Meets = Meets(quoted: nat, raised: Option<nat>, balance: nat, answered: bool, crash: bool)

  datatype Asked = NothingToAsk | Ask(worst: nat, nonce: nat)

  /** The terms to ask an approval at, if one is to be asked for. */
  function Asking(s: State, party: Role, m: Meets): Asked
    requires party in s.setupNonce
  {
    var newest := Newest(s.rows, party);
    if newest.Some? then
      (if s.rows[newest.value].status.Submitted? && m.raised.Some?
       then Ask(m.raised.value, s.rows[newest.value].nonce) else NothingToAsk)
    else Ask(if party in s.terms then s.terms[party] else m.quoted, s.setupNonce[party])
  }

  function AfterMint(s: State, p: Plan, party: Role, token: Token, nonce: nat): State {
    if Failed(s) || MintSent(s, p, party, token) then s
    else s.(rows := s.rows + [Row(Mint(party, token), nonce, Pending, 0, 0, 0, None)])
  }

  function AfterApproval(s: State, p: Plan, party: Role, m: Meets, nonce: nat): State
    requires party in s.setupNonce
  {
    var asked := Asking(s, party, m);
    if Failed(s) || !MintsSent(s, p) || asked.NothingToAsk? then s
    else
      var quoted := if Newest(s.rows, party).Some? then s else s.(terms := s.terms[party := asked.worst]);
      if FundingInFlight(s, party) then quoted
      else if m.balance < asked.worst then
        var shortfall := asked.worst - m.balance;
        quoted.(rows := s.rows + [Row(Fund(party), nonce, Pending, shortfall, asked.worst, m.balance, None)])
      else if !m.answered then quoted
      else
        var row := Row(Approve(party), asked.nonce, Pending, 0, asked.worst, m.balance, None);
        var sent := quoted.(rows := s.rows + [row]);
        if m.crash then sent.(terms := map[])
        else sent.(setupNonce := s.setupNonce[party := Max(s.setupNonce[party], asked.nonce + 1)],
                   terms := sent.terms - {party})
  }

  predicate ReadyToOpen(s: State, p: Plan) {
    !Failed(s) && MintsSent(s, p) && Newest(s.rows, Buyer).Some? && Newest(s.rows, Seller).Some? && SetupConfirmed(s)
    && !Sent(s, Create)
  }

  /** The session is recorded before its transaction is persisted; a crash may come between. */
  function AfterOpen(s: State, p: Plan, id: nat, headTime: nat, nonce: nat, crash: bool): State {
    if !ReadyToOpen(s, p) then s
    else
      var session := if s.session.Some? then s.session.value else RecordedSession(id, headTime + p.duration);
      var recorded := s.(session := Some(session));
      if crash then recorded else recorded.(rows := s.rows + [Row(Create, nonce, Pending, 0, 0, 0, Some(session))])
  }

  class SessionSetup {
    const plan: Plan
    var rows: seq<Row>
    var session: Option<RecordedSession>
    var setupNonce: map<Role, nat>
    var terms: map<Role, nat>

    function Value(): State
      reads this
    {
      State(rows, session, setupNonce, terms)
    }

    constructor (plan: Plan)
      ensures this.plan == plan && Value() == FRESH
    {
      this.plan := plan;
      rows, session, setupNonce, terms := [], None, map[Buyer := 0, Seller := 0], map[];
    }

    method SendMint(party: Role, token: Token, nonce: nat)
      modifies this`rows
      ensures Value() == AfterMint(old(Value()), plan, party, token, nonce)
    {
      var failed := AnyReverted();
      if failed {
        return;
      }
      var sent := IsSent(Mint(party, token));
      if plan.Amount(party, token) != 0 && !sent {
        rows := rows + [Row(Mint(party, token), nonce, Pending, 0, 0, 0, None)];
      }
    }

    method AnyReverted() returns (r: bool)
      ensures r <==> Failed(Value())
    {
      r := false;
      for i := 0 to |rows|
        invariant r <==> exists j | 0 <= j < i :: rows[j].status.Reverted?
      {
        r := r || rows[i].status.Reverted?;
      }
    }

    method IsSent(w: What) returns (r: bool)
      ensures r <==> Sent(Value(), w)
    {
      r := false;
      for i := 0 to |rows|
        invariant r <==> exists j | 0 <= j < i :: rows[j].what == w && !Gone(rows[j].status)
      {
        r := r || (rows[i].what == w && !Gone(rows[i].status));
      }
    }

    /** Asks for the party's approval, first funding its wallet to the worst case. */
    method Approval(party: Role, m: Meets, nonce: nat)
      requires party in setupNonce
      modifies this`rows, this`setupNonce, this`terms
      ensures Value() == AfterApproval(old(Value()), plan, party, m, nonce)
    {
      var read := Value();
      var failed := AnyReverted();
      if failed || !MintsSent(read, plan) {
        return;
      }
      var newest := Newest(rows, party);
      var worst, approvalNonce;
      if newest.Some? {
        var row := rows[newest.value];
        if !row.status.Submitted? || m.raised.None? {
          return;
        }
        worst, approvalNonce := m.raised.value, row.nonce;
      } else {
        worst, approvalNonce := if party in terms then terms[party] else m.quoted, setupNonce[party];
      }
      if newest.None? {
        terms := terms[party := worst];
      }
      if FundingInFlight(read, party) {
        return;
      }
      if m.balance < worst {
        rows := rows + [Row(Fund(party), nonce, Pending, worst - m.balance, worst, m.balance, None)];
        return;
      }
      if m.answered {
        rows := rows + [Row(Approve(party), approvalNonce, Pending, 0, worst, m.balance, None)];
        if m.crash {
          terms := map[];
        } else {
          setupNonce := setupNonce[party := Max(setupNonce[party], approvalNonce + 1)];
          terms := terms - {party};
        }
      }
    }

    method OpenSession(id: nat, headTime: nat, nonce: nat, crash: bool)
      modifies this`rows, this`session
      ensures Value() == AfterOpen(old(Value()), plan, id, headTime, nonce, crash)
    {
      if !ReadyToOpen(Value(), plan) {
        return;
      }
      if session.None? {
        session := Some(RecordedSession(id, headTime + plan.duration));
      }
      if !crash {
        rows := rows + [Row(Create, nonce, Pending, 0, 0, 0, session)];
      }
    }

    method Forget()
      modifies this`terms
      ensures Value() == old(Value()).(terms := map[])
    {
      terms := map[];
    }
  }
}
