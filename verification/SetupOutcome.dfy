/** Exactly what each step of setup sends and records, said of the persisted rows. */
module SetupOutcome {
  import opened Common
  import opened Protocol
  import opened Setup
  import opened SetupSafety

  /** Something of this was sent and is neither dropped nor reverted. */
  predicate Stands(rows: seq<Row>, w: What) {
    exists row | row in rows :: row.what == w && row.status !in {Dropped, Reverted}
  }

  predicate AnyFailed(rows: seq<Row>) { exists row | row in rows :: row.status == Reverted }

  /** Every mint of the plan that is not of nothing stands. */
  predicate AllMinted(rows: seq<Row>, p: Plan) {
    && (p.buyerBase > 0 ==> Stands(rows, Mint(Buyer, BaseToken)))
    && (p.buyerQuote > 0 ==> Stands(rows, Mint(Buyer, QuoteToken)))
    && (p.sellerBase > 0 ==> Stands(rows, Mint(Seller, BaseToken)))
    && (p.sellerQuote > 0 ==> Stands(rows, Mint(Seller, QuoteToken)))
  }

  function AmountOf(p: Plan, party: Role, token: Token): nat {
    match (party, token)
    case (Buyer, BaseToken) => p.buyerBase
    case (Buyer, QuoteToken) => p.buyerQuote
    case (Seller, BaseToken) => p.sellerBase
    case (Seller, QuoteToken) => p.sellerQuote
  }

  lemma StandsIff(s: State, w: What)
    ensures Stands(s.rows, w) <==> Sent(s, w)
  {
    if i :| 0 <= i < |s.rows| && s.rows[i].what == w && !Gone(s.rows[i].status) {
      assert s.rows[i] in s.rows;
    }
  }

  lemma FailedIff(s: State)
    ensures AnyFailed(s.rows) <==> Failed(s)
  {
    if i :| 0 <= i < |s.rows| && s.rows[i].status.Reverted? {
      assert s.rows[i] in s.rows;
    }
  }

  lemma MintedIff(s: State, p: Plan)
    ensures AllMinted(s.rows, p) <==> MintsSent(s, p)
  {
    StandsIff(s, Mint(Buyer, BaseToken));
    StandsIff(s, Mint(Buyer, QuoteToken));
    StandsIff(s, Mint(Seller, BaseToken));
    StandsIff(s, Mint(Seller, QuoteToken));
  }

  /** A mint is sent exactly where nothing failed, there is something to mint, and nothing of it stands. */
  lemma MintIsSentIff(s: State, p: Plan, party: Role, token: Token, nonce: nat)
    requires NonceIsFresh(s, nonce)
    ensures After(s, p, SendMint(party, token, nonce)) == s.(rows := s.rows
      + if !AnyFailed(s.rows) && AmountOf(p, party, token) > 0 && !Stands(s.rows, Mint(party, token))
        then [Row(Mint(party, token), nonce, Pending, 0, 0, 0, None)] else [])
  {
    FailedIff(s);
    StandsIff(s, Mint(party, token));
    assert s.rows + [] == s.rows;
  }

  // ---------------------------------------------------------------------------------------------
  // An approval
  // ---------------------------------------------------------------------------------------------

  /** The last of the party's approvals neither dropped nor reverted. */
  ghost predicate IsNewest(rows: seq<Row>, party: Role, i: nat) {
    && i < |rows| && rows[i].what == What.Approve(party) && rows[i].status !in {Dropped, Reverted}
    && forall j | i < j < |rows| && rows[j].what == What.Approve(party) :: rows[j].status in {Dropped, Reverted}
  }

  /** What an approval is asked for: where one stands, only a submitted one that is stuck, at its own nonce
      and the raised worst case; where none does, the terms remembered or else quoted, at the wallet's
      recorded nonce. */
  ghost predicate AsksFor(s: State, party: Role, m: Meets, worst: nat, nonce: nat) {
    if Stands(s.rows, What.Approve(party)) then
      exists i: nat :: IsNewest(s.rows, party, i) && s.rows[i].status == Submitted
                       && m.raised == Some(worst) && nonce == s.rows[i].nonce
    else
      && (if party in s.terms then worst == s.terms[party] else worst == m.quoted)
      && party in s.setupNonce && nonce == s.setupNonce[party]
  }

  /** A top-up of the wallet is sent and neither confirmed, replaced, dropped nor reverted. */
  predicate ToppingUp(rows: seq<Row>, party: Role) {
    exists row | row in rows :: row.what == Fund(party) && row.status in {Pending, Submitted, Included}
  }

  lemma ToppingUpIff(s: State, party: Role)
    ensures ToppingUp(s.rows, party) <==> FundingInFlight(s, party)
  {
    if i :| 0 <= i < |s.rows| && s.rows[i].what == Fund(party) && !Gone(s.rows[i].status)
            && !SettledTx(s.rows[i].status) && !s.rows[i].status.Replaced? {
      assert s.rows[i] in s.rows;
    }
  }

  lemma NewestIs(s: State, party: Role)
    ensures Newest(s.rows, party).Some? <==> Stands(s.rows, What.Approve(party))
    ensures forall i: nat :: IsNewest(s.rows, party, i) <==> Newest(s.rows, party) == Some(i)
  {
    StandsIff(s, What.Approve(party));
  }

  lemma AsksIff(s: State, party: Role, m: Meets, worst: nat, nonce: nat)
    requires party in s.setupNonce
    ensures AsksFor(s, party, m, worst, nonce) <==> Asking(s, party, m) == Ask(worst, nonce)
  {
    NewestIs(s, party);
  }

  /** The state once the terms to ask at are known. */
  function WithTerms(s: State, party: Role, worst: nat): State {
    if Stands(s.rows, What.Approve(party)) then s else s.(terms := s.terms[party := worst])
  }

  /** The approval is the wallet's `nonce`, so the recorded nonce moves past it and the terms are spent;
      a crash comes between. */
  function Requested(s: State, party: Role, m: Meets, worst: nat, nonce: nat): State
    requires party in s.setupNonce
  {
    var row := Row(What.Approve(party), nonce, Pending, 0, worst, m.balance, None);
    if m.crash then s.(rows := s.rows + [row], terms := map[])
    else
      var recorded := if nonce < s.setupNonce[party] then s.setupNonce[party] else nonce + 1;
      s.(rows := s.rows + [row], setupNonce := s.setupNonce[party := recorded], terms := s.terms - {party})
  }

  /** An approval step does nothing before every mint stands, after a failure, or where nothing is to be
      asked. */
  lemma ApprovalDoesNothing(s: State, p: Plan, party: Role, m: Meets, fundNonce: nat)
    requires party in s.setupNonce && NonceIsFresh(s, fundNonce)
    requires AnyFailed(s.rows) || !AllMinted(s.rows, p)
             || forall worst: nat, nonce: nat :: !AsksFor(s, party, m, worst, nonce)
    ensures After(s, p, Approval(party, m, fundNonce)) == s
  {
    FailedIff(s);
    MintedIff(s, p);
    if Asking(s, party, m).Ask? {
      AsksIff(s, party, m, Asking(s, party, m).worst, Asking(s, party, m).nonce);
    }
  }

  /** Otherwise it waits for a top-up on its way, tops the wallet up by exactly what it lacks, waits for the
      agent, or sends its answer. */
  lemma ApprovalDoes(s: State, p: Plan, party: Role, m: Meets, fundNonce: nat, worst: nat, nonce: nat)
    requires party in s.setupNonce && NonceIsFresh(s, fundNonce)
    requires !AnyFailed(s.rows) && AllMinted(s.rows, p) && AsksFor(s, party, m, worst, nonce)
    ensures var terms := WithTerms(s, party, worst);
      After(s, p, Approval(party, m, fundNonce))
      == if ToppingUp(s.rows, party) then terms
         else if m.balance < worst then
           terms.(rows := s.rows + [Row(Fund(party), fundNonce, Pending, worst - m.balance, worst, m.balance, None)])
         else if !m.answered then terms
         else Requested(terms, party, m, worst, nonce)
  {
    FailedIff(s);
    MintedIff(s, p);
    ToppingUpIff(s, party);
    NewestIs(s, party);
    AsksIff(s, party, m, worst, nonce);
  }

  // ---------------------------------------------------------------------------------------------
  // The session
  // ---------------------------------------------------------------------------------------------

  /** Every row of setup proper that counts is confirmed, and there is one. */
  predicate AllConfirmed(rows: seq<Row>) {
    && (exists row | row in rows :: !row.what.Create? && row.status in {Confirmed, Finalized})
    && (forall row | row in rows && !row.what.Create? :: row.status !in {Pending, Submitted, Included})
  }

  /** Nothing failed, everything to mint and both approvals stand, all of it is confirmed, and nothing of
      the creation stands. */
  predicate MayCreate(rows: seq<Row>, p: Plan) {
    && !AnyFailed(rows) && AllMinted(rows, p)
    && Stands(rows, What.Approve(Buyer)) && Stands(rows, What.Approve(Seller))
    && AllConfirmed(rows) && !Stands(rows, Create)
  }

  lemma ConfirmedIff(s: State)
    requires !Failed(s)
    ensures AllConfirmed(s.rows) <==> SetupConfirmed(s)
  {
    if row :| row in s.rows && !row.what.Create? && row.status in {Confirmed, Finalized} {
      var i :| 0 <= i < |s.rows| && s.rows[i] == row;
    }
    if i :| 0 <= i < |s.rows| && !s.rows[i].what.Create? && !Gone(s.rows[i].status) && !s.rows[i].status.Replaced? {
      assert s.rows[i] in s.rows;
    }
  }

  lemma MayCreateIff(s: State, p: Plan)
    ensures MayCreate(s.rows, p) <==> ReadyToOpen(s, p)
  {
    FailedIff(s);
    MintedIff(s, p);
    NewestIs(s, Buyer);
    NewestIs(s, Seller);
    StandsIff(s, Create);
    if !Failed(s) {
      ConfirmedIff(s);
    }
  }

  /** All an opening does: where the session may be created, one is recorded if none is, to end the plan's
      duration after the head, and, unless a crash comes between, one row is sent that carries it. */
  lemma OpeningDoes(s: State, p: Plan, id: nat, headTime: nat, nonce: nat, crash: bool)
    requires NonceIsFresh(s, nonce)
    ensures var s' := After(s, p, OpenSession(id, headTime, nonce, crash));
      && s'.setupNonce == s.setupNonce && s'.terms == s.terms
      && (!MayCreate(s.rows, p) ==> s' == s)
      && (MayCreate(s.rows, p) && s.session.Some? ==> s'.session == s.session)
      && (MayCreate(s.rows, p) && s.session.None? ==>
            s'.session.Some? && s'.session.value.id == id && s'.session.value.expiresAt - headTime == p.duration)
      && (MayCreate(s.rows, p) ==>
            s'.rows == s.rows + if crash then [] else [Row(Create, nonce, Pending, 0, 0, 0, s'.session)])
  {
    MayCreateIff(s, p);
    assert s.rows + [] == s.rows;
  }

  /** Only an opening records a session. */
  lemma OnlyOpeningsRecord(s: State, p: Plan, e: Event)
    requires Enabled(s, e) && After(s, p, e).session != s.session
    ensures e.OpenSession? && s.session.None? && MayCreate(s.rows, p)
    ensures After(s, p, e).session.Some?
  {
    MayCreateIff(s, p);
  }

  /** Step `m` of a history recorded this session. */
  ghost predicate RecordedAt(ss: seq<State>, es: seq<Event>, p: Plan, m: nat, session: RecordedSession)
    requires m < |es| && |ss| == |es| + 1
  {
    && ss[m].session.None? && es[m].OpenSession? && MayCreate(ss[m].rows, p)
    && session.id == es[m].id && session.expiresAt == es[m].headTime + p.duration
  }

  /** In every history, whatever session stands recorded was recorded by one opening, with its id and with
      the plan's duration after the head that opening saw; and every creation carries it, while recovery
      leaves groups standing or not. */
  lemma {:induction false} SessionIsAnOpenings(ss: seq<State>, es: seq<Event>, p: Plan, n: nat)
    requires History(ss, es, p) && n <= |es|
    ensures ss[n].session.Some? ==> exists m: nat | m < n :: RecordedAt(ss, es, p, m, ss[n].session.value)
    ensures forall i | 0 <= i < |ss[n].rows| && ss[n].rows[i].what.Create? ::
      ss[n].session.Some? && ss[n].rows[i].session == ss[n].session
  {
    if n > 0 {
      var s, e := ss[n - 1], es[n - 1];
      SessionIsAnOpenings(ss, es, p, n - 1);
      if ss[n].session != s.session {
        OnlyOpeningsRecord(s, p, e);
        OpeningDoes(s, p, e.id, e.headTime, e.createNonce, e.crash);
        assert RecordedAt(ss, es, p, n - 1, ss[n].session.value);
      } else if s.session.Some? {
        var m: nat :| m < n - 1 && RecordedAt(ss, es, p, m, s.session.value);
        assert m < n;
      }
      CreationsCarryIt(s, p, e);
    }
  }

  lemma CreationsCarryIt(s: State, p: Plan, e: Event)
    requires Enabled(s, e)
    requires forall i | 0 <= i < |s.rows| && s.rows[i].what.Create? ::
      s.session.Some? && s.rows[i].session == s.session
    ensures var s' := After(s, p, e);
      forall i | 0 <= i < |s'.rows| && s'.rows[i].what.Create? :: s'.session.Some? && s'.rows[i].session == s'.session
  {
  }

  // ---------------------------------------------------------------------------------------------
  // The chain, the relay and the process
  // ---------------------------------------------------------------------------------------------

  /** One row's status becomes this, everything else stays. */
  predicate OnlyStatus(s: State, s': State, i: nat, status: TxStatus) {
    i < |s.rows| && s' == s.(rows := s.rows[i := s.rows[i].(status := status)])
  }

  /** What happens to setup's rows from outside: broadcasts, receipts, depth, reorganisations, replacements
      and recovery; and what a process loses. */
  lemma OutsideDoes(s: State, p: Plan, i: nat, succeeded: bool)
    requires i < |s.rows|
    ensures Enabled(s, Submit(i)) ==> OnlyStatus(s, After(s, p, Submit(i)), i, Submitted)
    ensures Enabled(s, Reset(i)) ==> OnlyStatus(s, After(s, p, Reset(i)), i, Submitted)
    ensures Enabled(s, Supersede(i)) ==> OnlyStatus(s, After(s, p, Supersede(i)), i, Dropped)
    ensures Enabled(s, Deepen(i)) ==>
      OnlyStatus(s, After(s, p, Deepen(i)), i, if s.rows[i].status == Included then Confirmed else Finalized)
    ensures Enabled(s, Replace(i)) ==>
      var s' := After(s, p, Replace(i));
      && s' == s.(rows := s'.rows) && |s'.rows| == |s.rows| + 1
      && s'.rows[..|s.rows|] == s.rows[i := s.rows[i].(status := TxStatus.Replaced)]
      && s'.rows[|s.rows|] == s.rows[i].(status := Pending)
    ensures After(s, p, Forget).terms == map[] && After(s, p, Forget) == s.(terms := After(s, p, Forget).terms)
    ensures Enabled(s, Include(i, succeeded)) ==>
      var s' := After(s, p, Include(i, succeeded));
      && s' == s.(rows := s'.rows) && |s'.rows| == |s.rows|
      && s'.rows[i] == s.rows[i].(status := if succeeded then Included else Reverted)
      && forall j | 0 <= j < |s.rows| && j != i ::
           s'.rows[j] == if s.rows[j].nonce == s.rows[i].nonce && SenderOf(s.rows[j].what) == SenderOf(s.rows[i].what)
                            && s.rows[j].status in {Pending, Submitted}
                         then s.rows[j].(status := Dropped) else s.rows[j]
  {
  }
}
