/** Histories of the source's own writes in which recovery leaves a group nothing standing, or nothing
    neither dropped nor replaced, and what setup then sends. */
module SetupHistories {
  import opened Common
  import opened Protocol
  import opened Setup
  import opened SetupSafety

  lemma Then(ss: seq<State>, es: seq<Event>, p: Plan, e: Event) returns (ss': seq<State>, es': seq<Event>)
    requires History(ss, es, p) && Enabled(ss[|es|], e)
    ensures History(ss', es', p) && |es'| == |es| + 1 && ss'[|es'|] == After(ss[|es|], p, e)
  {
    ss', es' := ss + [After(ss[|es|], p, e)], es + [e];
    forall i | 0 <= i < |es'|
      ensures Enabled(ss'[i], es'[i]) && ss'[i + 1] == After(ss'[i], p, es'[i])
    {
      if i < |es| {
        assert ss'[i] == ss[i] && es'[i] == es[i] && ss'[i + 1] == ss[i + 1];
      }
    }
  }

  // ---------------------------------------------------------------------------------------------
  // What recovery leaves of one group
  // ---------------------------------------------------------------------------------------------

  /** No row of `s` is in the group of `row`. */
  predicate NewGroup(s: State, row: Row) {
    forall i | 0 <= i < |s.rows| :: !SameGroup(s.rows[i], row)
  }

  lemma IsReplaced(ss0: seq<State>, es0: seq<Event>, p: Plan, s: State, row: Row)
    returns (ss: seq<State>, es: seq<Event>)
    requires History(ss0, es0, p) && ss0[|es0|] == s.(rows := s.rows + [row])
    requires row.status.Pending? && !row.what.Approve?
    ensures History(ss, es, p)
    ensures ss[|es|] == s.(rows := s.rows + [row.(status := TxStatus.Replaced), row])
  {
    var n := |s.rows|;
    ss, es := Then(ss0, es0, p, Submit(n));
    assert ss[|es|].rows == s.rows + [row.(status := Submitted)];
    ss, es := Then(ss, es, p, Replace(n));
    assert ss[|es|].rows == s.rows + [row.(status := TxStatus.Replaced), row];
  }

  /** The second of two is dropped for the receipt of the first, which a reorganisation takes back; the
      first is then dropped for a receipt of the second. */
  lemma BothDropped(ss0: seq<State>, es0: seq<Event>, p: Plan, s: State, a: Row, b: Row)
    returns (ss: seq<State>, es: seq<Event>)
    requires History(ss0, es0, p) && ss0[|es0|] == s.(rows := s.rows + [a, b]) && SameGroup(a, b) && NewGroup(s, a)
    requires (a.status.Submitted? || a.status.Replaced?) && b.status.Pending?
    ensures History(ss, es, p)
    ensures ss[|es|] == s.(rows := s.rows + [a.(status := Dropped), b.(status := Dropped)])
  {
    var n := |s.rows|;
    ss, es := Then(ss0, es0, p, Include(n, true));
    assert ss[|es|].rows == s.rows + [a.(status := Included), b.(status := Dropped)];
    ss, es := Then(ss, es, p, Reset(n));
    assert ss[|es|].rows == s.rows + [a.(status := Submitted), b.(status := Dropped)];
    assert IsSibling(ss[|es|], n, n + 1);
    ss, es := Then(ss, es, p, Supersede(n));
    assert ss[|es|].rows == s.rows + [a.(status := Dropped), b.(status := Dropped)];
  }

  lemma ReplacedThenDropped(ss0: seq<State>, es0: seq<Event>, p: Plan, s: State, row: Row)
    returns (ss: seq<State>, es: seq<Event>)
    requires History(ss0, es0, p) && ss0[|es0|] == s.(rows := s.rows + [row])
    requires row.status.Pending? && !row.what.Approve?
    ensures History(ss, es, p)
    ensures ss[|es|] == s.(rows := s.rows + [row.(status := TxStatus.Replaced), row.(status := Dropped)])
  {
    var n := |s.rows|;
    ss, es := IsReplaced(ss0, es0, p, s, row);
    assert IsSibling(ss[|es|], n + 1, n);
    ss, es := Then(ss, es, p, Supersede(n + 1));
    assert ss[|es|].rows == s.rows + [row.(status := TxStatus.Replaced), row.(status := Dropped)];
  }

  /** The receipt of a dropped row `b` is recorded after `c` was sent at another nonce. */
  lemma IncludedLate(ss0: seq<State>, es0: seq<Event>, p: Plan, s: State, a: Row, b: Row, c: Row)
    returns (ss: seq<State>, es: seq<Event>)
    requires History(ss0, es0, p) && ss0[|es0|] == s.(rows := s.rows + [a, b, c]) && NewGroup(s, b)
    requires a.status.Dropped? && b.status.Dropped? && c.status.Pending? && b.what == c.what && b.nonce != c.nonce
    ensures History(ss, es, p) && LiveTwice(ss[|es|].rows, c.what)
  {
    var n := |s.rows|;
    ss, es := Then(ss0, es0, p, Include(n + 1, true));
    var rows := ss[|es|].rows;
    assert rows[n + 1] == b.(status := Included) && rows[n + 2] == c;
    assert BothLive(rows[n + 1], rows[n + 2]);
  }

  // ---------------------------------------------------------------------------------------------
  // A mint sent twice
  // ---------------------------------------------------------------------------------------------

  function MintRow(party: Role, token: Token): Row { Row(Mint(party, token), 0, Pending, 0, 0, 0, None) }

  lemma MintRecorded(p: Plan, party: Role, token: Token) returns (ss: seq<State>, es: seq<Event>)
    requires p.Amount(party, token) > 0
    ensures History(ss, es, p) && ss[|es|] == FRESH.(rows := FRESH.rows + [MintRow(party, token)])
  {
    ss, es := [FRESH], [];
    ss, es := Then(ss, es, p, SendMint(party, token, 0));
  }

  /** It happens, to any mint of any plan: replaced, mined, undone by a reorganisation and then mined as
      its replacement, it is dropped with its sibling dropped before; with the whole group gone it is
      sent again, and the sibling's inclusion is recorded after that. */
  lemma MintSentTwice(p: Plan, party: Role, token: Token) returns (ss: seq<State>, es: seq<Event>)
    requires p.Amount(party, token) > 0
    ensures History(ss, es, p) && LiveTwice(ss[|es|].rows, Mint(party, token))
  {
    var r := MintRow(party, token);
    ss, es := MintRecorded(p, party, token);
    ss, es := IsReplaced(ss, es, p, FRESH, r);
    ss, es := BothDropped(ss, es, p, FRESH, r.(status := TxStatus.Replaced), r);
    ss, es := Then(ss, es, p, SendMint(party, token, 1));
    assert ss[|es|].rows == FRESH.rows + [r.(status := Dropped), r.(status := Dropped), r.(nonce := 1)];
    ss, es := IncludedLate(ss, es, p, FRESH, r.(status := Dropped), r.(status := Dropped), r.(nonce := 1));
  }

  // ---------------------------------------------------------------------------------------------
  // Setup in which at most one mint is not confirmed
  // ---------------------------------------------------------------------------------------------

  /** Setup under way, everything sent confirmed but the mint `odd`, if there is one, which is replaced
      or dropped. */
  ghost predicate OnTrack(s: State, odd: Option<What>) {
    && s.session.None? && s.terms == map[] && s.setupNonce.Keys == {Buyer, Seller}
    && (odd.Some? ==> odd.value.Mint? && Sent(s, odd.value))
    && (forall i | 0 <= i < |s.rows| :: RowOnTrack(s.rows[i], odd, |s.rows|))
  }

  predicate RowOnTrack(row: Row, odd: Option<What>, count: nat) {
    && (row.what.Mint? || row.what.Approve?)
    && (if odd == Some(row.what) then row.status.Replaced? || row.status.Dropped? else row.status.Confirmed?)
    && row.nonce < count && (odd == Some(row.what) ==> row.nonce == 0)
    && (odd.Some? && row.what.Mint? && odd != Some(row.what) ==> row.nonce > 0)
  }

  /** One more row, sent, mined and confirmed while nothing else is in flight. */
  lemma Confirms(ss0: seq<State>, es0: seq<Event>, p: Plan, s: State, odd: Option<What>, row: Row)
    returns (ss: seq<State>, es: seq<Event>)
    requires History(ss0, es0, p) && ss0[|es0|] == s.(rows := s.rows + [row])
    requires row.status.Pending? && OnTrack(s, odd)
    ensures History(ss, es, p) && ss[|es|] == s.(rows := s.rows + [row.(status := Confirmed)])
  {
    var n := |s.rows|;
    ss, es := Then(ss0, es0, p, Include(n, true));
    forall i | 0 <= i < n
      ensures ss[|es|].rows[i] == s.rows[i]
    {
      assert RowOnTrack(s.rows[i], odd, n);
    }
    assert ss[|es|].rows == s.rows + [row.(status := Included)];
    ss, es := Then(ss, es, p, Deepen(n));
    assert ss[|es|].rows == s.rows + [row.(status := Confirmed)];
  }

  lemma SentStays(s: State, s': State, w: What)
    requires s.rows <= s'.rows
    ensures Sent(s, w) ==> Sent(s', w)
  {
    if k :| 0 <= k < |s.rows| && s.rows[k].what == w && !Gone(s.rows[k].status) {
      assert s'.rows[k] == s.rows[k];
    }
  }

  lemma MintsStay(s: State, s': State, p: Plan)
    requires s.rows <= s'.rows && MintsSent(s, p)
    ensures MintsSent(s', p)
  {
    SentStays(s, s', Mint(Buyer, BaseToken));
    SentStays(s, s', Mint(Buyer, QuoteToken));
    SentStays(s, s', Mint(Seller, BaseToken));
    SentStays(s, s', Mint(Seller, QuoteToken));
  }

  lemma StaysOnTrack(s: State, odd: Option<What>, row: Row, setupNonce: map<Role, nat>)
    requires OnTrack(s, odd) && odd != Some(row.what) && (row.what.Mint? || row.what.Approve?) && row.status.Confirmed?
    requires row.nonce <= |s.rows| && (odd.Some? && row.what.Mint? ==> row.nonce > 0)
    requires setupNonce.Keys == {Buyer, Seller}
    ensures OnTrack(s.(rows := s.rows + [row], setupNonce := setupNonce), odd)
  {
    var s' := s.(rows := s.rows + [row], setupNonce := setupNonce);
    if odd.Some? {
      SentStays(s, s', odd.value);
    }
    forall i | 0 <= i < |s'.rows|
      ensures RowOnTrack(s'.rows[i], odd, |s'.rows|)
    {
      if i < |s.rows| {
        assert RowOnTrack(s.rows[i], odd, |s.rows|);
      }
    }
  }

  lemma NothingFails(s: State, odd: Option<What>)
    requires OnTrack(s, odd)
    ensures !Failed(s) && (forall party :: !FundingInFlight(s, party))
    ensures forall nonce: nat | nonce >= |s.rows| :: NonceIsFresh(s, nonce)
  {
    forall i | 0 <= i < |s.rows|
      ensures !s.rows[i].status.Reverted? && !s.rows[i].what.Fund? && s.rows[i].nonce < |s.rows|
    {
      assert RowOnTrack(s.rows[i], odd, |s.rows|);
    }
  }

  ghost predicate OnlyMints(rows: seq<Row>) {
    forall i | 0 <= i < |rows| :: rows[i].what.Mint?
  }

  lemma MintConfirmed(ss0: seq<State>, es0: seq<Event>, p: Plan, odd: Option<What>, party: Role, token: Token)
    returns (ss: seq<State>, es: seq<Event>)
    requires History(ss0, es0, p) && OnTrack(ss0[|es0|], odd) && OnlyMints(ss0[|es0|].rows)
    ensures History(ss, es, p) && OnTrack(ss[|es|], odd) && OnlyMints(ss[|es|].rows)
    ensures MintSent(ss[|es|], p, party, token)
    ensures ss0[|es0|].rows <= ss[|es|].rows && ss[|es|].setupNonce == ss0[|es0|].setupNonce
  {
    var s := ss0[|es0|];
    ss, es := ss0, es0;
    NothingFails(s, odd);
    if !MintSent(s, p, party, token) {
      var row := Row(Mint(party, token), |s.rows|, Pending, 0, 0, 0, None);
      ss, es := Then(ss, es, p, SendMint(party, token, |s.rows|));
      ss, es := Confirms(ss, es, p, s, odd, row);
      StaysOnTrack(s, odd, row.(status := Confirmed), s.setupNonce);
      assert ss[|es|].rows[|s.rows|] == row.(status := Confirmed);
    }
  }

  lemma MintsConfirmed(ss0: seq<State>, es0: seq<Event>, p: Plan, odd: Option<What>)
    returns (ss: seq<State>, es: seq<Event>)
    requires History(ss0, es0, p) && OnTrack(ss0[|es0|], odd) && OnlyMints(ss0[|es0|].rows)
    ensures History(ss, es, p) && OnTrack(ss[|es|], odd) && OnlyMints(ss[|es|].rows)
    ensures MintsSent(ss[|es|], p) && ss[|es|].setupNonce == ss0[|es0|].setupNonce
  {
    ss, es := MintConfirmed(ss0, es0, p, odd, Buyer, BaseToken);
    var s1 := ss[|es|];
    ss, es := MintConfirmed(ss, es, p, odd, Buyer, QuoteToken);
    var s2 := ss[|es|];
    SentStays(s1, s2, Mint(Buyer, BaseToken));
    ss, es := MintConfirmed(ss, es, p, odd, Seller, BaseToken);
    var s3 := ss[|es|];
    SentStays(s2, s3, Mint(Buyer, BaseToken));
    SentStays(s2, s3, Mint(Buyer, QuoteToken));
    ss, es := MintConfirmed(ss, es, p, odd, Seller, QuoteToken);
    SentStays(s3, ss[|es|], Mint(Buyer, BaseToken));
    SentStays(s3, ss[|es|], Mint(Buyer, QuoteToken));
    SentStays(s3, ss[|es|], Mint(Seller, BaseToken));
  }

  lemma AllMinted(p: Plan) returns (ss: seq<State>, es: seq<Event>)
    ensures History(ss, es, p) && OnTrack(ss[|es|], None) && OnlyMints(ss[|es|].rows)
    ensures MintsSent(ss[|es|], p) && ss[|es|].setupNonce == FRESH.setupNonce
  {
    ss, es := MintsConfirmed([FRESH], [], p, None);
  }

  function ApproveRow(party: Role, nonce: nat, worst: nat): Row {
    Row(What.Approve(party), nonce, Pending, 0, worst, worst, None)
  }

  /** Nothing of the party's approval stands. */
  predicate NoneAsked(s: State, party: Role) {
    forall i | 0 <= i < |s.rows| :: s.rows[i].what != What.Approve(party) || Gone(s.rows[i].status)
  }

  /** A wallet that holds the worst case quoted is asked for its approval, at its recorded nonce. */
  lemma ApprovalAsked(ss0: seq<State>, es0: seq<Event>, p: Plan, party: Role, worst: nat, nonce: nat)
    returns (ss: seq<State>, es: seq<Event>)
    requires History(ss0, es0, p)
    requires var s := ss0[|es0|];
      && MintsSent(s, p) && !Failed(s) && !FundingInFlight(s, party) && s.terms == map[] && party in s.setupNonce
      && NoneAsked(s, party) && NonceIsFresh(s, nonce)
    ensures History(ss, es, p)
    ensures var s := ss0[|es0|];
      ss[|es|] == s.(rows := s.rows + [ApproveRow(party, s.setupNonce[party], worst)],
                     setupNonce := s.setupNonce[party := s.setupNonce[party] + 1])
  {
    ss, es := Then(ss0, es0, p, Approval(party, Meets(worst, None, worst, true, false), nonce));
    assert ss[|es|].terms == map[];
  }

  lemma ApprovalConfirmed(ss0: seq<State>, es0: seq<Event>, p: Plan, odd: Option<What>, party: Role, worst: nat)
    returns (ss: seq<State>, es: seq<Event>)
    requires History(ss0, es0, p) && OnTrack(ss0[|es0|], odd)
    requires var s := ss0[|es0|]; MintsSent(s, p) && s.setupNonce[party] == 0 && NoneAsked(s, party)
    ensures History(ss, es, p) && OnTrack(ss[|es|], odd)
    ensures var s := ss0[|es0|];
      ss[|es|] == s.(rows := s.rows + [ApproveRow(party, 0, worst).(status := Confirmed)],
                     setupNonce := s.setupNonce[party := 1])
  {
    var s, row := ss0[|es0|], ApproveRow(party, 0, worst);
    var asked := s.(setupNonce := s.setupNonce[party := 1]);
    NothingFails(s, odd);
    ss, es := ApprovalAsked(ss0, es0, p, party, worst, |s.rows|);
    assert OnTrack(asked, odd) by {
      if odd.Some? {
        SentStays(s, asked, odd.value);
      }
    }
    ss, es := Confirms(ss, es, p, asked, odd, row);
    StaysOnTrack(s, odd, row.(status := Confirmed), asked.setupNonce);
  }

  lemma BothApproved(s0: State, s: State, odd: Option<What>, worst: nat)
    requires OnTrack(s, odd)
    requires s.rows == s0.rows + [ApproveRow(Buyer, 0, worst).(status := Confirmed),
                                  ApproveRow(Seller, 0, worst).(status := Confirmed)]
    ensures !Failed(s) && Newest(s.rows, Buyer).Some? && Newest(s.rows, Seller).Some?
    ensures SetupConfirmed(s) && !Sent(s, Create)
  {
    var n := |s0.rows|;
    NothingFails(s, odd);
    assert s.rows[n].what == What.Approve(Buyer) && s.rows[n + 1].what == What.Approve(Seller);
    forall i | 0 <= i < |s.rows|
      ensures !s.rows[i].what.Create?
      ensures Gone(s.rows[i].status) || s.rows[i].status.Replaced? || SettledTx(s.rows[i].status)
    {
      assert RowOnTrack(s.rows[i], odd, |s.rows|);
    }
  }

  /** Whatever the approvals cost, both are given and the session may be created. */
  lemma Approved(ss0: seq<State>, es0: seq<Event>, p: Plan, odd: Option<What>, worst: nat)
    returns (ss: seq<State>, es: seq<Event>)
    requires History(ss0, es0, p) && OnTrack(ss0[|es0|], odd) && OnlyMints(ss0[|es0|].rows)
    requires MintsSent(ss0[|es0|], p) && ss0[|es0|].setupNonce == FRESH.setupNonce
    ensures History(ss, es, p) && OnTrack(ss[|es|], odd) && ReadyToOpen(ss[|es|], p)
  {
    var s0 := ss0[|es0|];
    ss, es := ApprovalConfirmed(ss0, es0, p, odd, Buyer, worst);
    var s1 := ss[|es|];
    MintsStay(s0, s1, p);
    ss, es := ApprovalConfirmed(ss, es, p, odd, Seller, worst);
    MintsStay(s1, ss[|es|], p);
    BothApproved(s0, ss[|es|], odd, worst);
  }

  // ---------------------------------------------------------------------------------------------
  // A session created over a mint that is not confirmed
  // ---------------------------------------------------------------------------------------------

  /** A created session, and a mint of which nothing is confirmed. */
  ghost predicate CreatedBeforeRest(s: State) {
    exists i, j | 0 <= i < |s.rows| && 0 <= j < |s.rows| ::
      s.rows[i].what.Create? && s.rows[j].what.Mint? && !AtRest(s, s.rows[j])
  }

  lemma MintUnconfirmed(p: Plan, party: Role, token: Token) returns (ss: seq<State>, es: seq<Event>)
    requires p.Amount(party, token) > 0
    ensures History(ss, es, p) && OnTrack(ss[|es|], Some(Mint(party, token))) && OnlyMints(ss[|es|].rows)
    ensures ss[|es|].setupNonce == FRESH.setupNonce
  {
    ss, es := MintRecorded(p, party, token);
    ss, es := ReplacedThenDropped(ss, es, p, FRESH, MintRow(party, token));
    assert ss[|es|].rows[0].what == Mint(party, token);
  }

  /** It happens, in any plan with something to mint, whatever the approvals cost: the replacement of a
      mint is dropped with only the replaced original beside it, everything else is confirmed, and the
      session is created. */
  lemma OpenedOverUnconfirmedMint(p: Plan, party: Role, token: Token, worst: nat)
    returns (ss: seq<State>, es: seq<Event>)
    requires p.Amount(party, token) > 0
    ensures History(ss, es, p) && CreatedBeforeRest(ss[|es|])
  {
    var w := Mint(party, token);
    ss, es := MintUnconfirmed(p, party, token);
    ss, es := MintsConfirmed(ss, es, p, Some(w));
    ss, es := Approved(ss, es, p, Some(w), worst);
    var s := ss[|es|];
    NothingFails(s, Some(w));
    ss, es := Then(ss, es, p, OpenSession(0, 0, |s.rows|, false));
    var s' := ss[|es|];
    assert s'.rows == s.rows + [Row(Create, |s.rows|, Pending, 0, 0, 0, s'.session)];
    var k :| 0 <= k < |s.rows| && s.rows[k].what == w && !Gone(s.rows[k].status);
    forall j | 0 <= j < |s'.rows| && SameGroup(s'.rows[k], s'.rows[j])
      ensures !SettledTx(s'.rows[j].status)
    {
      assert RowOnTrack(s.rows[k], Some(w), |s.rows|);
      if j < |s.rows| {
        assert RowOnTrack(s.rows[j], Some(w), |s.rows|);
      }
    }
    assert s'.rows[|s.rows|].what.Create? && s'.rows[k].what.Mint? && !AtRest(s', s'.rows[k]);
  }

  // ---------------------------------------------------------------------------------------------
  // A creation sent twice
  // ---------------------------------------------------------------------------------------------

  lemma StillReady(s: State, s': State, p: Plan, a: Row, b: Row)
    requires OnTrack(s, None) && ReadyToOpen(s, p) && s'.rows == s.rows + [a, b]
    requires a.what.Create? && a.status.Dropped? && b.what.Create? && b.status.Dropped?
    ensures ReadyToOpen(s', p)
  {
    MintsStay(s, s', p);
    assert forall i | 0 <= i < |s.rows| :: s'.rows[i] == s.rows[i];
    assert forall i | 0 <= i < |s.rows| :: RowOnTrack(s.rows[i], None, |s.rows|);
  }

  /** It happens, in any plan: the first creation and its replacement are both dropped, a second one is
      sent at the next nonce, and the first is recorded as included after all. */
  lemma CreatedTwice(p: Plan, worst: nat, id: nat, headTime: nat) returns (ss: seq<State>, es: seq<Event>)
    ensures History(ss, es, p) && LiveTwice(ss[|es|].rows, Create)
  {
    ss, es := AllMinted(p);
    ss, es := Approved(ss, es, p, None, worst);
    var s := ss[|es|];
    var n := |s.rows|;
    NothingFails(s, None);
    var session := Some(RecordedSession(id, headTime + p.duration));
    var row := Row(Create, n, Pending, 0, 0, 0, session);
    var recorded := s.(session := session);
    ss, es := Then(ss, es, p, OpenSession(id, headTime, n, false));
    assert ss[|es|] == recorded.(rows := recorded.rows + [row]);
    assert NewGroup(recorded, row);
    ss, es := IsReplaced(ss, es, p, recorded, row);
    ss, es := BothDropped(ss, es, p, recorded, row.(status := TxStatus.Replaced), row);
    var gone := row.(status := Dropped);
    StillReady(s, ss[|es|], p, gone, gone);
    ss, es := Then(ss, es, p, OpenSession(id, headTime, n + 1, false));
    assert ss[|es|].rows == recorded.rows + [gone, gone, row.(nonce := n + 1)];
    ss, es := IncludedLate(ss, es, p, recorded, gone, gone, row.(nonce := n + 1));
  }

  // ---------------------------------------------------------------------------------------------
  // An approval asked for twice
  // ---------------------------------------------------------------------------------------------

  function Stuck(party: Role, worst: nat): Row { ApproveRow(party, 0, worst).(status := Submitted) }

  lemma RaisesStuck(s: State, p: Plan, party: Role, worst: nat, raised: nat, nonce: nat)
    requires |s.rows| > 0 && s.rows[|s.rows| - 1] == Stuck(party, worst) && !Failed(s) && MintsSent(s, p)
    requires !FundingInFlight(s, party) && s.terms == map[] && party in s.setupNonce && s.setupNonce[party] == 1
    ensures AfterApproval(s, p, party, Meets(worst, Some(raised), raised, true, false), nonce)
         == s.(rows := s.rows + [ApproveRow(party, 0, raised)])
  {
    var s' := AfterApproval(s, p, party, Meets(worst, Some(raised), raised, true, false), nonce);
    assert Newest(s.rows, party) == Some(|s.rows| - 1);
    assert s'.setupNonce == s.setupNonce && s'.terms == map[];
  }

  lemma StuckIsNoFailure(s: State, s1: State, p: Plan, party: Role, worst: nat)
    requires OnTrack(s, None) && MintsSent(s, p) && s1.rows == s.rows + [Stuck(party, worst)]
    ensures !Failed(s1) && !FundingInFlight(s1, party) && MintsSent(s1, p)
  {
    NothingFails(s, None);
    MintsStay(s, s1, p);
  }

  /** A stuck approval is asked for again at its own nonce, on the raised terms. */
  lemma ApprovalRaised(ss0: seq<State>, es0: seq<Event>, p: Plan, s: State, party: Role, worst: nat, raised: nat)
    returns (ss: seq<State>, es: seq<Event>)
    requires History(ss0, es0, p) && OnTrack(s, None) && MintsSent(s, p) && s.setupNonce[party] == 1
    requires ss0[|es0|] == s.(rows := s.rows + [ApproveRow(party, 0, worst)])
    ensures History(ss, es, p)
    ensures ss[|es|] == s.(rows := s.rows + [Stuck(party, worst), ApproveRow(party, 0, raised)])
  {
    ss, es := Then(ss0, es0, p, Submit(|s.rows|));
    var s1 := ss[|es|];
    assert s1.rows == s.rows + [Stuck(party, worst)];
    StuckIsNoFailure(s, s1, p, party, worst);
    RaisesStuck(s1, p, party, worst, raised, |s.rows|);
    assert NonceIsFresh(s1, |s.rows|) by {
      NothingFails(s, None);
    }
    ss, es := Then(ss, es, p, Approval(party, Meets(worst, Some(raised), raised, true, false), |s.rows|));
    assert ss[|es|].rows == s.rows + [Stuck(party, worst), ApproveRow(party, 0, raised)];
  }

  /** It happens, in any plan, to either party, whatever the terms and the raised ones: the approval and
      its replacement are both dropped, the agent is asked again at the wallet's next nonce, and the
      first answer is recorded as included after all. */
  lemma ApprovedTwice(p: Plan, party: Role, worst: nat, raised: nat) returns (ss: seq<State>, es: seq<Event>)
    ensures History(ss, es, p) && LiveTwice(ss[|es|].rows, What.Approve(party))
  {
    ss, es := AllMinted(p);
    var s0 := ss[|es|];
    NothingFails(s0, None);
    ss, es := ApprovalAsked(ss, es, p, party, worst, |s0.rows|);
    var s := s0.(setupNonce := s0.setupNonce[party := 1]);
    MintsStay(s0, s, p);
    var a, b := ApproveRow(party, 0, worst), ApproveRow(party, 0, raised);
    ss, es := ApprovalRaised(ss, es, p, s, party, worst, raised);
    ss, es := BothDropped(ss, es, p, s, Stuck(party, worst), b);
    var s1 := ss[|es|];
    MintsStay(s, s1, p);
    NothingFails(s, None);
    ss, es := ApprovalAsked(ss, es, p, party, worst, |s1.rows|);
    assert ss[|es|].rows == s.rows + [a.(status := Dropped), b.(status := Dropped), ApproveRow(party, 1, worst)];
    var s2 := s.(setupNonce := ss[|es|].setupNonce);
    ss, es := IncludedLate(ss, es, p, s2, a.(status := Dropped), b.(status := Dropped), ApproveRow(party, 1, worst));
  }

  // ---------------------------------------------------------------------------------------------
  // A wallet funded twice
  // ---------------------------------------------------------------------------------------------

  function FundRow(party: Role, nonce: nat, worst: nat, balance: nat): Row
    requires balance < worst
  {
    Row(Fund(party), nonce, Pending, worst - balance, worst, balance, None)
  }

  /** The last three rows: a top-up replaced, its replacement dropped, and a second top-up of the whole
      shortfall at another nonce. Nothing of the first is confirmed, and it may still be mined. */
  ghost predicate ToppedUpBeforeRest(s: State, party: Role, worst: nat, balance: nat)
    requires balance < worst
  {
    var n := |s.rows| - 3;
    && n >= 0
    && s.rows[n] == FundRow(party, n, worst, balance).(status := TxStatus.Replaced)
    && s.rows[n + 1] == FundRow(party, n, worst, balance).(status := Dropped)
    && s.rows[n + 2] == FundRow(party, n + 1, worst, balance)
    && !AtRest(s, s.rows[n])
  }

  lemma TopUpLoose(p: Plan, party: Role, worst: nat, balance: nat)
    returns (ss: seq<State>, es: seq<Event>, s: State)
    requires balance < worst
    ensures History(ss, es, p) && OnTrack(s.(terms := map[]), None) && OnlyMints(s.rows) && MintsSent(s, p)
    ensures s.terms == map[party := worst]
    ensures var row := FundRow(party, |s.rows|, worst, balance);
      ss[|es|] == s.(rows := s.rows + [row.(status := TxStatus.Replaced), row.(status := Dropped)])
  {
    ss, es := AllMinted(p);
    var minted := ss[|es|];
    var n := |minted.rows|;
    s := minted.(terms := map[party := worst]);
    MintsStay(minted, s, p);
    NothingFails(minted, None);
    ss, es := Then(ss, es, p, Approval(party, Meets(worst, None, balance, true, false), n));
    assert ss[|es|] == s.(rows := s.rows + [FundRow(party, n, worst, balance)]);
    ss, es := ReplacedThenDropped(ss, es, p, s, FundRow(party, n, worst, balance));
    assert s.(terms := map[]) == minted;
  }

  lemma FundsShortfall(s: State, p: Plan, party: Role, worst: nat, balance: nat, nonce: nat)
    requires balance < worst && !Failed(s) && MintsSent(s, p) && !FundingInFlight(s, party)
    requires NoneAsked(s, party) && s.terms == map[party := worst] && party in s.setupNonce
    ensures AfterApproval(s, p, party, Meets(worst, None, balance, true, false), nonce)
         == s.(rows := s.rows + [FundRow(party, nonce, worst, balance)])
  {
  }

  lemma LooseIsNotInFlight(s: State, s1: State, p: Plan, party: Role, row: Row)
    requires OnTrack(s.(terms := map[]), None) && OnlyMints(s.rows) && MintsSent(s, p)
    requires row.what == Fund(party) && row.nonce == |s.rows|
    requires s1.rows == s.rows + [row.(status := TxStatus.Replaced), row.(status := Dropped)]
    ensures !Failed(s1) && !FundingInFlight(s1, party) && MintsSent(s1, p) && NoneAsked(s1, party)
    ensures NonceIsFresh(s1, |s.rows| + 1) && NewGroup(s, row)
  {
    NothingFails(s.(terms := map[]), None);
    MintsStay(s, s1, p);
    assert NonceIsFresh(s.(terms := map[]), |s.rows|) && NonceIsFresh(s.(terms := map[]), |s.rows| + 1);
  }

  lemma FundedAgain(p: Plan, party: Role, worst: nat, balance: nat)
    returns (ss: seq<State>, es: seq<Event>, s: State)
    requires balance < worst
    ensures History(ss, es, p)
    ensures var row := FundRow(party, |s.rows|, worst, balance);
      && NewGroup(s, row)
      && ss[|es|].rows == s.rows + [row.(status := TxStatus.Replaced), row.(status := Dropped),
                                    row.(nonce := |s.rows| + 1)]
  {
    ss, es, s := TopUpLoose(p, party, worst, balance);
    var n, s1, row := |s.rows|, ss[|es|], FundRow(party, |s.rows|, worst, balance);
    LooseIsNotInFlight(s, s1, p, party, row);
    FundsShortfall(s1, p, party, worst, balance, n + 1);
    ss, es := Then(ss, es, p, Approval(party, Meets(worst, None, balance, true, false), n + 1));
    assert ss[|es|].rows == s1.rows + [row.(nonce := n + 1)];
  }

  /** It happens, in any plan, to either party, whatever the approval costs and however little the wallet
      holds: the top-up's replacement is dropped with only the replaced original beside it, and the
      wallet is topped up again. */
  lemma ToppedUpTwice(p: Plan, party: Role, worst: nat, balance: nat) returns (ss: seq<State>, es: seq<Event>)
    requires balance < worst
    ensures History(ss, es, p) && ToppedUpBeforeRest(ss[|es|], party, worst, balance)
  {
    var s;
    ss, es, s := FundedAgain(p, party, worst, balance);
    var row := FundRow(party, |s.rows|, worst, balance);
    assert forall j | 0 <= j < |s.rows| :: ss[|es|].rows[j] == s.rows[j] && !SameGroup(s.rows[j], row);
  }

  /** Two mined rows, each sending the whole shortfall. */
  ghost predicate FundedTwice(rows: seq<Row>, party: Role, worst: nat, balance: nat)
    requires balance < worst
  {
    exists i, j | 0 <= i < j < |rows| ::
      rows[i] == FundRow(party, rows[i].nonce, worst, balance).(status := Included)
      && rows[j] == FundRow(party, rows[j].nonce, worst, balance).(status := Included)
  }

  /** And both can then be mined, so that the wallet receives its shortfall twice. */
  lemma ShortfallSentTwice(p: Plan, party: Role, worst: nat, balance: nat)
    returns (ss: seq<State>, es: seq<Event>)
    requires balance < worst
    ensures History(ss, es, p) && FundedTwice(ss[|es|].rows, party, worst, balance)
  {
    var s;
    ss, es, s := FundedAgain(p, party, worst, balance);
    var n := |s.rows|;
    var row := FundRow(party, n, worst, balance);
    ss, es := Then(ss, es, p, Include(n, true));
    assert ss[|es|].rows[n] == row.(status := Included) && ss[|es|].rows[n + 2] == row.(nonce := n + 1);
    ss, es := Then(ss, es, p, Include(n + 2, true));
    var rows := ss[|es|].rows;
    assert rows[n] == row.(status := Included) && rows[n + 2] == row.(nonce := n + 1, status := Included);
  }
}
