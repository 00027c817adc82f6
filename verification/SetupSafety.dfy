/** What setup keeps through every crash, replacement and reorganisation, and the one recovery that
    can break it. */
module SetupSafety {
  import opened Common
  import opened Protocol
  import opened Setup

  // ---------------------------------------------------------------------------------------------
  // Everything that happens
  // ---------------------------------------------------------------------------------------------

  /** The driver's units of work, a loss of the process's memory, and what the relay and the indexer
      do to the rows. */
  datatype Event =
    | SendMint(mintFor: Role, token: Token, mintNonce: nat)
    | Approval(party: Role, meets: Meets, fundNonce: nat)
    | OpenSession(id: nat, headTime: nat, createNonce: nat, crash: bool)
    | Forget
    | Submit(row: nat)
    | Include(row: nat, succeeded: bool)
    | Deepen(row: nat)
    | Reset(row: nat)
    | Replace(row: nat)
    | Supersede(row: nat)

  predicate Unmined(s: TxStatus) { s.Pending? || s.Submitted? }

  predicate SameGroup(a: Row, b: Row) { a.nonce == b.nonce && SenderOf(a.what) == SenderOf(b.what) }

  predicate Enabled(s: State, e: Event) {
    match e
    case SendMint(_, _, nonce) => NonceIsFresh(s, nonce)
    case Approval(party, _, nonce) => party in s.setupNonce && NonceIsFresh(s, nonce)
    case OpenSession(_, _, nonce, _) => NonceIsFresh(s, nonce)
    case Forget => true
    case Submit(row) => row < |s.rows| && s.rows[row].status.Pending?
    case Include(row, _) =>
      row < |s.rows|
      && (Unmined(s.rows[row].status) || s.rows[row].status.Replaced? || s.rows[row].status.Dropped?)
    case Deepen(row) => row < |s.rows| && (s.rows[row].status.Included? || s.rows[row].status.Confirmed?)
    case Reset(row) =>
      row < |s.rows|
      && (s.rows[row].status.Included? || s.rows[row].status.Confirmed? || s.rows[row].status.Reverted?)
    case Replace(row) => row < |s.rows| && s.rows[row].status.Submitted? && !s.rows[row].what.Approve?
    case Supersede(row) =>
      row < |s.rows| && Unmined(s.rows[row].status) && exists j | 0 <= j < |s.rows| :: IsSibling(s, row, j)
  }

  /** Another row at the same nonce: one the chain may hold a receipt of. */
  predicate IsSibling(s: State, row: nat, j: nat) {
    row < |s.rows| && j < |s.rows| && j != row && SameGroup(s.rows[row], s.rows[j])
  }

  function WithStatus(rows: seq<Row>, row: nat, status: TxStatus): seq<Row>
    requires row < |rows|
  {
    rows[row := rows[row].(status := status)]
  }

  /** The mined row, its unmined rivals dropped. */
  function WithInclusion(rows: seq<Row>, row: nat, succeeded: bool): (r: seq<Row>)
    requires row < |rows|
    ensures |r| == |rows|
  {
    seq(|rows|, i requires 0 <= i < |rows| =>
      if i == row then rows[i].(status := if succeeded then Included else Reverted)
      else if SameGroup(rows[i], rows[row]) && Unmined(rows[i].status) then rows[i].(status := Dropped)
      else rows[i])
  }

  function After(s: State, p: Plan, e: Event): State
    requires Enabled(s, e)
  {
    match e
    case SendMint(party, token, nonce) => AfterMint(s, p, party, token, nonce)
    case Approval(party, m, nonce) => AfterApproval(s, p, party, m, nonce)
    case OpenSession(id, headTime, nonce, crash) => AfterOpen(s, p, id, headTime, nonce, crash)
    case Forget => s.(terms := map[])
    case Submit(row) => s.(rows := WithStatus(s.rows, row, Submitted))
    case Include(row, succeeded) => s.(rows := WithInclusion(s.rows, row, succeeded))
    case Deepen(row) =>
      s.(rows := WithStatus(s.rows, row, if s.rows[row].status.Included? then Confirmed else Finalized))
    case Reset(row) => s.(rows := WithStatus(s.rows, row, Submitted))
    case Replace(row) => s.(rows := WithStatus(s.rows, row, TxStatus.Replaced) + [s.rows[row].(status := Pending)])
    case Supersede(row) => s.(rows := WithStatus(s.rows, row, Dropped))
  }

  ghost predicate History(ss: seq<State>, es: seq<Event>, p: Plan) {
    && |ss| == |es| + 1 && ss[0] == FRESH
    && forall i | 0 <= i < |es| :: Enabled(ss[i], es[i]) && ss[i + 1] == After(ss[i], p, es[i])
  }

  // ---------------------------------------------------------------------------------------------
  // Nonce groups
  // ---------------------------------------------------------------------------------------------

  /** Everything at one nonce of one key does the same thing, and each mint, each party's approval
      and the session's creation is at one nonce. */
  predicate Alike(a: Row, b: Row) {
    (SameGroup(a, b) ==> a.what == b.what) && (a.what == b.what && !a.what.Fund? ==> a.nonce == b.nonce)
  }

  ghost predicate OneGroupEach(s: State) {
    forall i, j {:trigger Alike(s.rows[i], s.rows[j])} | 0 <= i < |s.rows| && 0 <= j < |s.rows| ::
      Alike(s.rows[i], s.rows[j])
  }

  /** A status that keeps a group standing: not dropped and, strictly, not replaced either. */
  predicate Keeps(t: TxStatus, strict: bool) { !t.Dropped? && (strict ==> !t.Replaced?) }

  ghost predicate HasKept(rows: seq<Row>, row: Row, strict: bool) {
    exists j :: 0 <= j < |rows| && SameGroup(row, rows[j]) && Keeps(rows[j].status, strict)
  }

  ghost predicate AllKept(s: State, strict: bool) {
    forall i {:trigger HasKept(s.rows, s.rows[i], strict)} | 0 <= i < |s.rows| :: HasKept(s.rows, s.rows[i], strict)
  }

  /** A recovery that leaves its row's group standing: some other row at the nonce stands, which it
      could check before it drops this one. */
  ghost predicate LeavesKept(s: State, e: Event, strict: bool) {
    e.Supersede? ==> exists j: nat :: IsSibling(s, e.row, j) && Keeps(s.rows[j].status, strict)
  }

  /** Every creation carries the one recorded session. A funding and an approval are held to what they
      were decided from, recorded beside them, so there only a replacement or a change of the row
      could break this. */
  ghost predicate AmountsHold(s: State) {
    forall i {:trigger AmountHolds(s.rows[i], s.session)} | 0 <= i < |s.rows| :: AmountHolds(s.rows[i], s.session)
  }

  predicate AmountHolds(row: Row, session: Option<RecordedSession>) {
    match row.what
    case Fund(_) => 0 < row.value && row.value + row.balance == row.worst
    case Approve(_) => row.worst <= row.balance
    case Create => session.Some? && row.session == session
    case Mint(_, _) => true
  }

  ghost predicate Inv(s: State, strict: bool) {
    OneGroupEach(s) && AllKept(s, strict) && AmountsHold(s) && forall party: Role :: party in s.setupNonce
  }

  // ---------------------------------------------------------------------------------------------
  // One step
  // ---------------------------------------------------------------------------------------------

  /** While a group stands and nothing has reverted, the rows find what was sent. */
  lemma SentIfAny(s: State, strict: bool, i: nat)
    requires OneGroupEach(s) && AllKept(s, strict) && i < |s.rows| && !Failed(s)
    ensures Sent(s, s.rows[i].what)
  {
    assert HasKept(s.rows, s.rows[i], strict);
    var j :| 0 <= j < |s.rows| && SameGroup(s.rows[i], s.rows[j]) && Keeps(s.rows[j].status, strict);
    assert Alike(s.rows[i], s.rows[j]);
    assert s.rows[j].what == s.rows[i].what && !Gone(s.rows[j].status);
  }

  /** A new row: like every other, and of the right amount. */
  ghost predicate MayAdd(s: State, session: Option<RecordedSession>, row: Row) {
    && row.status.Pending? && AmountHolds(row, session)
    && forall i | 0 <= i < |s.rows| :: Alike(s.rows[i], row)
  }

  lemma AddKeepsAlike(s: State, s': State, row: Row)
    requires OneGroupEach(s) && MayAdd(s, s'.session, row) && s'.rows == s.rows + [row]
    ensures OneGroupEach(s')
  {
    forall i, j | 0 <= i < |s'.rows| && 0 <= j < |s'.rows|
      ensures Alike(s'.rows[i], s'.rows[j])
    {
      if i < |s.rows| && j < |s.rows| {
        assert Alike(s.rows[i], s.rows[j]);
      } else if i < |s.rows| {
        assert Alike(s.rows[i], row);
      } else if j < |s.rows| {
        assert Alike(s.rows[j], row);
      }
    }
  }

  lemma AddKeepsKept(s: State, s': State, row: Row, strict: bool)
    requires AllKept(s, strict) && row.status.Pending? && s'.rows == s.rows + [row]
    ensures AllKept(s', strict)
  {
    forall i | 0 <= i < |s'.rows|
      ensures HasKept(s'.rows, s'.rows[i], strict)
    {
      if i < |s.rows| {
        assert HasKept(s.rows, s.rows[i], strict);
        var j :| 0 <= j < |s.rows| && SameGroup(s.rows[i], s.rows[j]) && Keeps(s.rows[j].status, strict);
        assert SameGroup(s'.rows[i], s'.rows[j]) && Keeps(s'.rows[j].status, strict);
      } else {
        assert SameGroup(s'.rows[i], s'.rows[i]) && Keeps(s'.rows[i].status, strict);
      }
    }
  }

  lemma AddKeepsAmounts(s: State, s': State, row: Row)
    requires AmountsHold(s) && AmountHolds(row, s'.session) && s'.rows == s.rows + [row]
    requires s.session.Some? ==> s'.session == s.session
    ensures AmountsHold(s')
  {
    forall i | 0 <= i < |s'.rows|
      ensures AmountHolds(s'.rows[i], s'.session)
    {
      if i < |s.rows| {
        assert AmountHolds(s.rows[i], s.session);
      }
    }
  }

  /** A row at a fresh nonce of the operator's, for something nothing was sent for; a top-up needs
      only the nonce. */
  lemma FreshIsAlike(s: State, row: Row, strict: bool)
    requires OneGroupEach(s) && AllKept(s, strict) && !Failed(s) && NonceIsFresh(s, row.nonce)
    requires row.what.Fund? || (!row.what.Approve? && !Sent(s, row.what))
    ensures forall i | 0 <= i < |s.rows| :: Alike(s.rows[i], row)
  {
    forall i | 0 <= i < |s.rows|
      ensures Alike(s.rows[i], row)
    {
      SentIfAny(s, strict, i);
    }
  }

  /** An approval, at the nonce of those that stand or, where none stands, of none at all. */
  lemma ApprovalIsAlike(s: State, row: Row, strict: bool)
    requires OneGroupEach(s) && AllKept(s, strict) && !Failed(s) && row.what.Approve?
    requires Newest(s.rows, row.what.party).Some? ==>
      s.rows[Newest(s.rows, row.what.party).value].nonce == row.nonce
    ensures forall i | 0 <= i < |s.rows| :: Alike(s.rows[i], row)
  {
    forall i | 0 <= i < |s.rows|
      ensures Alike(s.rows[i], row)
    {
      SentIfAny(s, strict, i);
      if s.rows[i].what == row.what {
        assert Alike(s.rows[i], s.rows[Newest(s.rows, row.what.party).value]);
      }
    }
  }

  lemma MintAdds(s: State, p: Plan, party: Role, token: Token, nonce: nat, strict: bool)
    requires Inv(s, strict) && NonceIsFresh(s, nonce)
    ensures Inv(AfterMint(s, p, party, token, nonce), strict)
  {
    var s' := AfterMint(s, p, party, token, nonce);
    if !Failed(s) && !MintSent(s, p, party, token) {
      var row := s'.rows[|s.rows|];
      FreshIsAlike(s, row, strict);
      AddKeepsAlike(s, s', row);
      AddKeepsKept(s, s', row, strict);
      AddKeepsAmounts(s, s', row);
    }
  }

  lemma ApprovalAdds(s: State, p: Plan, party: Role, m: Meets, nonce: nat, strict: bool)
    requires Inv(s, strict) && NonceIsFresh(s, nonce)
    ensures Inv(AfterApproval(s, p, party, m, nonce), strict)
  {
    var s' := AfterApproval(s, p, party, m, nonce);
    if |s'.rows| > |s.rows| {
      var row := s'.rows[|s.rows|];
      if row.what.Fund? {
        FreshIsAlike(s, row, strict);
      } else {
        ApprovalIsAlike(s, row, strict);
      }
      AddKeepsAlike(s, s', row);
      AddKeepsKept(s, s', row, strict);
      AddKeepsAmounts(s, s', row);
    } else {
      assert s'.rows == s.rows;
    }
  }

  lemma OpenAdds(s: State, p: Plan, id: nat, headTime: nat, nonce: nat, crash: bool, strict: bool)
    requires Inv(s, strict) && NonceIsFresh(s, nonce)
    ensures Inv(AfterOpen(s, p, id, headTime, nonce, crash), strict)
  {
    var s' := AfterOpen(s, p, id, headTime, nonce, crash);
    if ReadyToOpen(s, p) {
      var row := Row(Create, nonce, Pending, 0, 0, 0, s'.session);
      FreshIsAlike(s, row, strict);
      var grown := s'.(rows := s.rows + [row]);
      AddKeepsAlike(s, grown, row);
      AddKeepsKept(s, grown, row, strict);
      AddKeepsAmounts(s, grown, row);
      assert AmountsHold(s.(session := s'.session)) by {
        forall i | 0 <= i < |s.rows|
          ensures AmountHolds(s.rows[i], s'.session)
        {
          assert AmountHolds(grown.rows[i], s'.session);
        }
      }
    }
  }

  /** The same rows but for their statuses. */
  ghost predicate SameButStatus(s: State, s': State) {
    && s'.session == s.session && s'.setupNonce == s.setupNonce && |s'.rows| == |s.rows|
    && forall i | 0 <= i < |s.rows| :: s'.rows[i] == s.rows[i].(status := s'.rows[i].status)
  }

  lemma StatusKeepsAlike(s: State, s': State)
    requires OneGroupEach(s) && SameButStatus(s, s')
    ensures OneGroupEach(s')
  {
    forall i, j | 0 <= i < |s'.rows| && 0 <= j < |s'.rows|
      ensures Alike(s'.rows[i], s'.rows[j])
    {
      assert Alike(s.rows[i], s.rows[j]);
    }
  }

  lemma StatusKeepsAmounts(s: State, s': State)
    requires AmountsHold(s) && SameButStatus(s, s')
    ensures AmountsHold(s')
  {
    forall i | 0 <= i < |s'.rows|
      ensures AmountHolds(s'.rows[i], s'.session)
    {
      assert AmountHolds(s.rows[i], s.session);
    }
  }

  /** Every group but one row's keeps what keeps it; that row's has another. */
  lemma KeptElsewhere(s: State, s': State, row: nat, kept: nat, strict: bool)
    requires AllKept(s, strict) && SameButStatus(s, s') && row < |s.rows| && kept < |s.rows|
    requires SameGroup(s.rows[row], s.rows[kept]) && Keeps(s'.rows[kept].status, strict)
    requires forall i | 0 <= i < |s.rows| && !SameGroup(s.rows[i], s.rows[row]) :: s'.rows[i] == s.rows[i]
    ensures AllKept(s', strict)
  {
    forall i | 0 <= i < |s'.rows|
      ensures HasKept(s'.rows, s'.rows[i], strict)
    {
      if SameGroup(s.rows[i], s.rows[row]) {
        assert SameGroup(s'.rows[i], s'.rows[kept]);
      } else {
        assert HasKept(s.rows, s.rows[i], strict);
        var j :| 0 <= j < |s.rows| && SameGroup(s.rows[i], s.rows[j]) && Keeps(s.rows[j].status, strict);
        assert SameGroup(s'.rows[i], s'.rows[j]) && s'.rows[j] == s.rows[j];
      }
    }
  }

  lemma IncludeKeepsKept(s: State, row: nat, succeeded: bool, strict: bool)
    requires AllKept(s, strict) && row < |s.rows|
    ensures var s' := s.(rows := WithInclusion(s.rows, row, succeeded));
      SameButStatus(s, s') && AllKept(s', strict)
  {
    KeptElsewhere(s, s.(rows := WithInclusion(s.rows, row, succeeded)), row, row, strict);
  }

  lemma OneStatusKeepsKept(s: State, row: nat, status: TxStatus, kept: nat, strict: bool)
    requires AllKept(s, strict) && row < |s.rows| && kept < |s.rows| && SameGroup(s.rows[row], s.rows[kept])
    requires if kept == row then Keeps(status, strict) else Keeps(s.rows[kept].status, strict)
    ensures var s' := s.(rows := WithStatus(s.rows, row, status));
      SameButStatus(s, s') && AllKept(s', strict)
  {
    KeptElsewhere(s, s.(rows := WithStatus(s.rows, row, status)), row, kept, strict);
  }

  lemma ChainKeepsInv(s: State, p: Plan, e: Event, strict: bool)
    requires Inv(s, strict) && Enabled(s, e) && LeavesKept(s, e, strict)
    requires e.Submit? || e.Include? || e.Deepen? || e.Reset? || e.Supersede?
    ensures Inv(After(s, p, e), strict)
  {
    var s' := After(s, p, e);
    if e.Supersede? {
      var j: nat :| IsSibling(s, e.row, j) && Keeps(s.rows[j].status, strict);
      OneStatusKeepsKept(s, e.row, Dropped, j, strict);
    } else if e.Include? {
      IncludeKeepsKept(s, e.row, e.succeeded, strict);
    } else {
      OneStatusKeepsKept(s, e.row, s'.rows[e.row].status, e.row, strict);
    }
    StatusKeepsAlike(s, s');
    StatusKeepsAmounts(s, s');
  }

  lemma ReplaceKeepsInv(s: State, row: nat, strict: bool)
    requires Inv(s, strict) && row < |s.rows|
    ensures Inv(s.(rows := WithStatus(s.rows, row, TxStatus.Replaced) + [s.rows[row].(status := Pending)]), strict)
  {
    var successor := s.rows[row].(status := Pending);
    var grown := s.(rows := s.rows + [successor]);
    var s' := s.(rows := WithStatus(s.rows, row, TxStatus.Replaced) + [successor]);
    forall i | 0 <= i < |s.rows|
      ensures Alike(s.rows[i], successor)
    {
      assert Alike(s.rows[i], s.rows[row]);
    }
    assert AmountHolds(s.rows[row], s.session);
    AddKeepsAlike(s, grown, successor);
    AddKeepsKept(s, grown, successor, strict);
    AddKeepsAmounts(s, grown, successor);
    assert s'.rows == WithStatus(grown.rows, row, TxStatus.Replaced);
    OneStatusKeepsKept(grown, row, TxStatus.Replaced, |s.rows|, strict);
    StatusKeepsAlike(grown, s');
    StatusKeepsAmounts(grown, s');
  }

  lemma StepKeepsInv(s: State, p: Plan, e: Event, strict: bool)
    requires Inv(s, strict) && Enabled(s, e) && LeavesKept(s, e, strict)
    ensures Inv(After(s, p, e), strict)
  {
    match e
    case SendMint(party, token, nonce) => MintAdds(s, p, party, token, nonce, strict);
    case Approval(party, m, nonce) => ApprovalAdds(s, p, party, m, nonce, strict);
    case OpenSession(id, headTime, nonce, crash) => OpenAdds(s, p, id, headTime, nonce, crash, strict);
    case Replace(row) => ReplaceKeepsInv(s, row, strict);
    case Forget =>
      StatusKeepsAlike(s, After(s, p, e));
      StatusKeepsAmounts(s, After(s, p, e));
    case _ => ChainKeepsInv(s, p, e, strict);
  }

  // ---------------------------------------------------------------------------------------------
  // Every history
  // ---------------------------------------------------------------------------------------------

  lemma {:induction false} EveryHistory(ss: seq<State>, es: seq<Event>, p: Plan, strict: bool, n: nat)
    requires History(ss, es, p) && n <= |es|
    requires forall i | 0 <= i < n :: LeavesKept(ss[i], es[i], strict)
    ensures Inv(ss[n], strict)
  {
    if n > 0 {
      EveryHistory(ss, es, p, strict, n - 1);
      StepKeepsInv(ss[n - 1], p, es[n - 1], strict);
    } else {
      forall party: Role
        ensures party in FRESH.setupNonce
      {
        assert party == Buyer || party == Seller by {
          if party.Seller? {
          }
        }
      }
    }
  }

  /** However setup is interrupted, forgotten and entered again, and whatever the chain does to its
      rows: each (party, token) mint, each approval and the session's creation has one nonce group
      ever; every funding is exactly its shortfall; no approval is asked for below its worst case;
      and every creation carries the one session recorded. All that asks is that recovery drops no
      row whose siblings are all dropped already. */
  lemma SetupIsSafe(ss: seq<State>, es: seq<Event>, p: Plan, n: nat)
    requires History(ss, es, p) && n <= |es|
    requires forall i | 0 <= i < n :: LeavesKept(ss[i], es[i], false)
    ensures OneGroupEach(ss[n]) && AmountsHold(ss[n])
  {
    EveryHistory(ss, es, p, false, n);
  }

  /** The session recorded is recorded for good. */
  lemma {:induction false} SessionIsKept(ss: seq<State>, es: seq<Event>, p: Plan, m: nat, n: nat)
    requires History(ss, es, p) && m <= n <= |es| && ss[m].session.Some?
    ensures ss[n].session == ss[m].session
    decreases n
  {
    if m < n {
      SessionIsKept(ss, es, p, m, n - 1);
    }
  }

  /** A nonce group has come to rest: one of its rows is confirmed. */
  ghost predicate AtRest(s: State, row: Row) {
    exists j :: 0 <= j < |s.rows| && SameGroup(row, s.rows[j]) && SettledTx(s.rows[j].status)
  }

  /** A top-up is sent only once every earlier one of that wallet has come to rest, and the session
      is created only once every mint, funding and approval has, all of them sent. That asks more of
      recovery: a row dropped with its siblings all dropped or replaced leaves a group no check looks at. */
  lemma SentOnlyAtRest(ss: seq<State>, es: seq<Event>, p: Plan, n: nat)
    requires History(ss, es, p) && n < |es|
    requires forall i | 0 <= i < n :: LeavesKept(ss[i], es[i], true)
    requires |ss[n + 1].rows| > |ss[n].rows| && !es[n].Replace?
    ensures var added := ss[n + 1].rows[|ss[n].rows|];
      && (added.what.Fund? ==>
            forall i | 0 <= i < |ss[n].rows| && ss[n].rows[i].what == added.what :: AtRest(ss[n], ss[n].rows[i]))
      && (added.what.Create? ==>
            MintsSent(ss[n], p) && Sent(ss[n], What.Approve(Buyer)) && Sent(ss[n], What.Approve(Seller))
            && forall i | 0 <= i < |ss[n].rows| && !ss[n].rows[i].what.Create? :: AtRest(ss[n], ss[n].rows[i]))
  {
    var s, added := ss[n], ss[n + 1].rows[|ss[n].rows|];
    EveryHistory(ss, es, p, true, n);
    if added.what.Fund? {
      FundsAtRest(s, p, es[n]);
    }
    if added.what.Create? {
      OpensAtRest(s, p, es[n]);
    }
  }

  lemma GroupAtRest(s: State, i: nat)
    requires OneGroupEach(s) && AllKept(s, true) && !Failed(s) && i < |s.rows|
    requires forall j | 0 <= j < |s.rows| && s.rows[j].what == s.rows[i].what
                        && Keeps(s.rows[j].status, true) && !Gone(s.rows[j].status) ::
      SettledTx(s.rows[j].status)
    ensures AtRest(s, s.rows[i])
  {
    assert HasKept(s.rows, s.rows[i], true);
    var j :| 0 <= j < |s.rows| && SameGroup(s.rows[i], s.rows[j]) && Keeps(s.rows[j].status, true);
    assert Alike(s.rows[i], s.rows[j]);
  }

  lemma FundsAtRest(s: State, p: Plan, e: Event)
    requires Inv(s, true) && Enabled(s, e) && !e.Replace?
    requires |After(s, p, e).rows| > |s.rows| && After(s, p, e).rows[|s.rows|].what.Fund?
    ensures forall i | 0 <= i < |s.rows| && s.rows[i].what == After(s, p, e).rows[|s.rows|].what :: AtRest(s, s.rows[i])
  {
    assert e.Approval? && !FundingInFlight(s, e.party);
    forall i | 0 <= i < |s.rows| && s.rows[i].what == What.Fund(e.party)
      ensures AtRest(s, s.rows[i])
    {
      GroupAtRest(s, i);
    }
  }

  lemma OpensAtRest(s: State, p: Plan, e: Event)
    requires Inv(s, true) && Enabled(s, e) && !e.Replace?
    requires |After(s, p, e).rows| > |s.rows| && After(s, p, e).rows[|s.rows|].what.Create?
    ensures MintsSent(s, p) && Sent(s, What.Approve(Buyer)) && Sent(s, What.Approve(Seller))
    ensures forall i | 0 <= i < |s.rows| && !s.rows[i].what.Create? :: AtRest(s, s.rows[i])
  {
    assert e.OpenSession? && ReadyToOpen(s, p);
    forall i | 0 <= i < |s.rows| && !s.rows[i].what.Create?
      ensures AtRest(s, s.rows[i])
    {
      GroupAtRest(s, i);
    }
  }

  // ---------------------------------------------------------------------------------------------
  // The recovery that can break it
  // ---------------------------------------------------------------------------------------------

  /** What a recovery of row `row` leaves of a state in which nothing has reverted. */
  lemma RecoveryLeaves(s: State, p: Plan, row: nat)
    requires Enabled(s, Supersede(row)) && OneGroupEach(s)
    ensures var s1 := After(s, p, Supersede(row));
      && SameButStatus(s, s1) && OneGroupEach(s1)
      && s1.rows[row].status.Dropped? && (forall i | 0 <= i < |s.rows| && i != row :: s1.rows[i] == s.rows[i])
      && (Failed(s1) ==> Failed(s))
  {
    StatusKeepsAlike(s, After(s, p, Supersede(row)));
  }

  /** A recovery that leaves nothing of a group standing leaves nothing sent of what it was for. */
  lemma NothingSentIff(s: State, p: Plan, row: nat)
    requires Inv(s, false) && Enabled(s, Supersede(row)) && !s.rows[row].what.Fund? && !Failed(s)
    ensures Sent(After(s, p, Supersede(row)), s.rows[row].what) <==> LeavesKept(s, Supersede(row), false)
  {
    var s1, w := After(s, p, Supersede(row)), s.rows[row].what;
    RecoveryLeaves(s, p, row);
    if LeavesKept(s, Supersede(row), false) {
      var j: nat :| IsSibling(s, row, j) && Keeps(s.rows[j].status, false);
      assert Alike(s.rows[row], s.rows[j]);
      assert s1.rows[j].what == w && !Gone(s1.rows[j].status);
    }
    if i: nat :| i < |s1.rows| && s1.rows[i].what == w && !Gone(s1.rows[i].status) {
      assert i != row && Alike(s.rows[row], s.rows[i]);
      assert IsSibling(s, row, i) && Keeps(s.rows[i].status, false);
    }
  }

  /** Exactly when a recovery lets a mint be sent at a second nonce: when no other row at its nonce is
      left that is not dropped. */
  lemma MintSentAgainIff(s: State, p: Plan, row: nat, nonce: nat)
    requires Inv(s, false) && Enabled(s, Supersede(row)) && s.rows[row].what.Mint? && !Failed(s)
    requires p.Amount(s.rows[row].what.party, s.rows[row].what.token) > 0
    requires NonceIsFresh(After(s, p, Supersede(row)), nonce)
    ensures var w := s.rows[row].what;
      OneGroupEach(AfterMint(After(s, p, Supersede(row)), p, w.party, w.token, nonce))
      <==> LeavesKept(s, Supersede(row), false)
  {
    var s1, w := After(s, p, Supersede(row)), s.rows[row].what;
    var s2 := AfterMint(s1, p, w.party, w.token, nonce);
    RecoveryLeaves(s, p, row);
    NothingSentIff(s, p, row);
    if Sent(s1, w) {
      assert s2 == s1;
    } else {
      assert s2.rows[row].what == w && s2.rows[|s1.rows|] == Row(w, nonce, Pending, 0, 0, 0, None);
      assert !Alike(s2.rows[row], s2.rows[|s1.rows|]);
    }
  }

  /** Two live rows of one thing at different nonces. */
  ghost predicate LiveTwice(rows: seq<Row>, w: What) {
    exists i, j | 0 <= i < |rows| && 0 <= j < |rows| :: rows[i].what == w && BothLive(rows[i], rows[j])
  }

  predicate BothLive(a: Row, b: Row) {
    a.what == b.what && a.nonce != b.nonce && !Gone(a.status) && !Gone(b.status)
  }

  ghost predicate MintedTwice(rows: seq<Row>) {
    exists w: What :: w.Mint? && LiveTwice(rows, w)
  }

  /** And when both are live in the end: recorded as included after all, the dropped row stands beside
      the second one. */
  lemma MintedTwiceIff(s: State, p: Plan, row: nat, nonce: nat)
    requires Inv(s, false) && Enabled(s, Supersede(row)) && s.rows[row].what.Mint? && !Failed(s)
    requires p.Amount(s.rows[row].what.party, s.rows[row].what.token) > 0
    requires NonceIsFresh(After(s, p, Supersede(row)), nonce)
    ensures var w := s.rows[row].what;
      var sent := AfterMint(After(s, p, Supersede(row)), p, w.party, w.token, nonce);
      MintedTwice(WithInclusion(sent.rows, row, true)) <==> !LeavesKept(s, Supersede(row), false)
  {
    var s1, w := After(s, p, Supersede(row)), s.rows[row].what;
    var sent := AfterMint(s1, p, w.party, w.token, nonce);
    RecoveryLeaves(s, p, row);
    NothingSentIff(s, p, row);
    if Sent(s1, w) {
      OneGroupIsNotTwice(sent, row);
    } else {
      SecondStandsBeside(s1.rows, row, Row(w, nonce, Pending, 0, 0, 0, None));
    }
  }

  lemma OneGroupIsNotTwice(s: State, row: nat)
    requires OneGroupEach(s) && row < |s.rows|
    ensures !MintedTwice(WithInclusion(s.rows, row, true))
  {
    var rows := WithInclusion(s.rows, row, true);
    forall i, j | 0 <= i < |rows| && 0 <= j < |rows| && rows[i].what.Mint?
      ensures !BothLive(rows[i], rows[j])
    {
      assert Alike(s.rows[i], s.rows[j]);
    }
  }

  lemma SecondStandsBeside(rows: seq<Row>, row: nat, second: Row)
    requires row < |rows| && second.what == rows[row].what && second.what.Mint?
    requires second.status.Pending? && second.nonce != rows[row].nonce
    ensures MintedTwice(WithInclusion(rows + [second], row, true))
  {
    var r, k := WithInclusion(rows + [second], row, true), |rows|;
    assert r[k] == second && r[row] == rows[row].(status := Included);
    assert BothLive(r[row], r[k]);
    assert LiveTwice(r, second.what);
  }

  /** Ready to open but for a creation already sent. */
  predicate Prepared(s: State, p: Plan) {
    !Failed(s) && MintsSent(s, p) && Newest(s.rows, Buyer).Some? && Newest(s.rows, Seller).Some? && SetupConfirmed(s)
  }

  /** Exactly when a recovery lets the session's creation be sent at a second nonce. */
  lemma CreatedAgainIff(s: State, p: Plan, row: nat, id: nat, headTime: nat, nonce: nat)
    requires Inv(s, false) && Enabled(s, Supersede(row)) && s.rows[row].what.Create? && !Failed(s)
    requires Prepared(After(s, p, Supersede(row)), p) && NonceIsFresh(After(s, p, Supersede(row)), nonce)
    ensures OneGroupEach(AfterOpen(After(s, p, Supersede(row)), p, id, headTime, nonce, false))
       <==> LeavesKept(s, Supersede(row), false)
  {
    var s1 := After(s, p, Supersede(row));
    var s2 := AfterOpen(s1, p, id, headTime, nonce, false);
    RecoveryLeaves(s, p, row);
    NothingSentIff(s, p, row);
    if Sent(s1, Create) {
      assert s2 == s1;
    } else {
      assert s2.rows[row].what == Create == s2.rows[|s1.rows|].what && s2.rows[|s1.rows|].nonce == nonce;
      assert !Alike(s2.rows[row], s2.rows[|s1.rows|]);
    }
  }

  /** Exactly when a recovery lets an approval be asked for at a second nonce: when nothing of it
      stands and the wallet's recorded nonce has moved past it. */
  lemma ApprovalAskedAgainIff(s: State, p: Plan, row: nat, m: Meets, nonce: nat)
    requires Inv(s, false) && Enabled(s, Supersede(row)) && s.rows[row].what.Approve? && !Failed(s)
    requires var s1, party := After(s, p, Supersede(row)), s.rows[row].what.party;
      && MintsSent(s1, p) && !FundingInFlight(s1, party) && NonceIsFresh(s1, nonce) && m.answered
      && (Asking(s1, party, m).Ask? ==> Asking(s1, party, m).worst <= m.balance)
    ensures var party := s.rows[row].what.party;
      OneGroupEach(AfterApproval(After(s, p, Supersede(row)), p, party, m, nonce)) <==>
      LeavesKept(s, Supersede(row), false) || s.setupNonce[party] == s.rows[row].nonce
  {
    var s1, party := After(s, p, Supersede(row)), s.rows[row].what.party;
    var s2 := AfterApproval(s1, p, party, m, nonce);
    RecoveryLeaves(s, p, row);
    NothingSentIff(s, p, row);
    if LeavesKept(s, Supersede(row), false) {
      ChainKeepsInv(s, p, Supersede(row), false);
      ApprovalAdds(s1, p, party, m, nonce, false);
    } else {
      var added := s2.rows[|s1.rows|];
      assert added.what == What.Approve(party) && added.nonce == s.setupNonce[party];
      assert s2.rows[row] == s1.rows[row];
      if s.setupNonce[party] == s.rows[row].nonce {
        forall i | 0 <= i < |s1.rows|
          ensures Alike(s1.rows[i], added)
        {
          assert Alike(s1.rows[i], s1.rows[row]);
        }
        assert AmountHolds(added, s2.session);
        AddKeepsAlike(s1, s2, added);
      } else {
        assert !Alike(s2.rows[row], added);
      }
    }
  }

  /** Exactly when a recovery lets the session be created over setup not confirmed: when no other row
      at the nonce is left that is neither dropped nor replaced. */
  lemma CreatedAtRestIff(s: State, p: Plan, row: nat, id: nat, headTime: nat, nonce: nat)
    requires Inv(s, true) && Enabled(s, Supersede(row)) && !s.rows[row].what.Create?
    requires ReadyToOpen(After(s, p, Supersede(row)), p)
    ensures var s1 := After(s, p, Supersede(row));
      var s2 := AfterOpen(s1, p, id, headTime, nonce, false);
      && s2.rows == s1.rows + [Row(Create, nonce, Pending, 0, 0, 0, s2.session)]
      && ((forall i | 0 <= i < |s1.rows| && !s1.rows[i].what.Create? :: AtRest(s1, s1.rows[i]))
          <==> LeavesKept(s, Supersede(row), true))
  {
    var s1 := After(s, p, Supersede(row));
    RecoveryLeaves(s, p, row);
    if LeavesKept(s, Supersede(row), true) {
      ChainKeepsInv(s, p, Supersede(row), true);
      forall i | 0 <= i < |s1.rows| && !s1.rows[i].what.Create?
        ensures AtRest(s1, s1.rows[i])
      {
        GroupAtRest(s1, i);
      }
    }
    if AtRest(s1, s1.rows[row]) {
      RestIsKept(s, s1, row);
    }
  }

  /** Exactly when it lets a wallet be topped up, by its whole shortfall again, before an earlier
      top-up is confirmed. */
  lemma ToppedUpAtRestIff(s: State, p: Plan, row: nat, m: Meets, nonce: nat)
    requires Inv(s, true) && Enabled(s, Supersede(row)) && s.rows[row].what.Fund? && !Failed(s)
    requires var s1, party := After(s, p, Supersede(row)), s.rows[row].what.party;
      && MintsSent(s1, p) && !FundingInFlight(s1, party)
      && Asking(s1, party, m).Ask? && m.balance < Asking(s1, party, m).worst
    ensures var s1, w := After(s, p, Supersede(row)), s.rows[row].what;
      var worst := Asking(s1, w.party, m).worst;
      && AfterApproval(s1, p, w.party, m, nonce).rows
         == s1.rows + [Row(w, nonce, Pending, worst - m.balance, worst, m.balance, None)]
      && ((forall i | 0 <= i < |s1.rows| && s1.rows[i].what == w :: AtRest(s1, s1.rows[i]))
          <==> LeavesKept(s, Supersede(row), true))
  {
    var s1 := After(s, p, Supersede(row));
    RecoveryLeaves(s, p, row);
    if LeavesKept(s, Supersede(row), true) {
      ChainKeepsInv(s, p, Supersede(row), true);
      forall i | 0 <= i < |s1.rows| && s1.rows[i].what == s.rows[row].what
        ensures AtRest(s1, s1.rows[i])
      {
        GroupAtRest(s1, i);
      }
    }
    if AtRest(s1, s1.rows[row]) {
      RestIsKept(s, s1, row);
    }
  }

  lemma RestIsKept(s: State, s1: State, row: nat)
    requires row < |s.rows| && SameButStatus(s, s1) && AtRest(s1, s1.rows[row]) && s1.rows[row].status.Dropped?
    requires forall i | 0 <= i < |s.rows| && i != row :: s1.rows[i] == s.rows[i]
    ensures LeavesKept(s, Supersede(row), true)
  {
    var j :| 0 <= j < |s1.rows| && SameGroup(s1.rows[row], s1.rows[j]) && SettledTx(s1.rows[j].status);
    assert IsSibling(s, row, j) && Keeps(s.rows[j].status, true);
  }

  /** In any history, up to and including its first recovery that leaves nothing of a mint's group:
      that recovery, and no step before it, lets the mint be sent at a second nonce. */
  lemma FirstBadRecoveryBreaks(ss: seq<State>, es: seq<Event>, p: Plan, n: nat, nonce: nat)
    requires History(ss, es, p) && n < |es| && es[n].Supersede?
    requires forall i | 0 <= i < n :: LeavesKept(ss[i], es[i], false)
    requires var w := ss[n].rows[es[n].row].what;
      w.Mint? && p.Amount(w.party, w.token) > 0 && !Failed(ss[n]) && NonceIsFresh(ss[n + 1], nonce)
    ensures OneGroupEach(ss[n]) && OneGroupEach(ss[n + 1])
    ensures var w := ss[n].rows[es[n].row].what;
      OneGroupEach(AfterMint(ss[n + 1], p, w.party, w.token, nonce)) <==> LeavesKept(ss[n], es[n], false)
  {
    EveryHistory(ss, es, p, false, n);
    RecoveryLeaves(ss[n], p, es[n].row);
    MintSentAgainIff(ss[n], p, es[n].row, nonce);
  }

  /** And its first recovery that leaves a group nothing neither dropped nor replaced: that one, and no
      step before it, lets a session be created over setup that is not confirmed. */
  lemma FirstLooseRecoveryOpens(ss: seq<State>, es: seq<Event>, p: Plan, n: nat)
    requires History(ss, es, p) && n < |es| && es[n].Supersede?
    requires forall i | 0 <= i < n :: LeavesKept(ss[i], es[i], true)
    requires !ss[n].rows[es[n].row].what.Create? && ReadyToOpen(ss[n + 1], p)
    ensures var s1 := ss[n + 1];
      (forall i | 0 <= i < |s1.rows| && !s1.rows[i].what.Create? :: AtRest(s1, s1.rows[i]))
      <==> LeavesKept(ss[n], es[n], true)
  {
    EveryHistory(ss, es, p, true, n);
    CreatedAtRestIff(ss[n], p, es[n].row, 0, 0, 0);
  }
}
