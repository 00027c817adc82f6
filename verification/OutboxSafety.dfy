/** What the outbox keeps through every interleaving of polls, reorgs and the relay's writes. */
module OutboxSafety {
  import opened Common
  import opened Chain
  import opened IndexerSpec

  /** One unit of work on the outbox. The first three are the indexer's, the rest the relay's. */
  datatype Move =
    | Reset(stale: set<Block>)
    | Include(i: nat, receipt: Receipt)
    | Deepen(view: View, runs: Runs)
    | Add(row: TxRow)
    | Submit(i: nat)
    | Replace(i: nat, tx: TxHash)
    | Drop(i: nat)

  /** A row that may be live: it has no inclusion, nothing else at its nonce has one, and no other
      row of its action is live. */
  ghost predicate MayStand(o: seq<TxRow>, i: nat)
    requires i < |o|
  {
    && !GroupIncluded(o, o[i])
    && forall j | 0 <= j < |o| && j != i && o[i].action.Some? && o[j].action == o[i].action :: !Live(o[j])
  }

  /** When each writer makes the move. A row is added pending, in a nonce group nothing of which is
      mined, for a signed action with no transaction yet; a receipt is recorded for a row still waited
      for. The relay writes a status whatever the row's status is by then: `RelayWriteKeepsSafeIff`
      shows that what is asked here of the row is exactly what those writes need, and
      `UnminedMayStand` that a row still pending or submitted meets it. */
  ghost predicate Enabled(o: seq<TxRow>, m: Move) {
    match m
    case Reset(_) => true
    case Include(i, _) => i < |o| && Awaits(o, i, {})
    case Deepen(_, _) => true
    case Add(row) =>
      row.status == Pending && row.block.None? && !GroupIncluded(o, row)
      && (row.action.Some? ==> forall j | 0 <= j < |o| :: o[j].action != row.action)
    case Submit(i) => i < |o| && MayStand(o, i)
    case Replace(i, _) => i < |o| && MayStand(o, i)
    case Drop(i) => i < |o| && o[i].block.None?
  }

  ghost function Moved(o: seq<TxRow>, m: Move): seq<TxRow>
    requires Enabled(o, m)
  {
    match m
    case Reset(stale) => ResetInclusions(o, stale)
    case Include(i, receipt) => WithInclusion(o, i, receipt)
    case Deepen(view, runs) => Deepened(o, view, runs)
    case Add(row) => o + [row]
    case Submit(i) => o[i := o[i].(status := Submitted)]
    case Replace(i, tx) => Replacing(o, i, tx)
    case Drop(i) => o[i := o[i].(status := Dropped)]
  }

  /** A recorded inclusion is exactly a mined status. */
  ghost predicate StatusesMatch(o: seq<TxRow>) {
    forall i | 0 <= i < |o| :: o[i].block.Some? <==> Mined(o[i].status)
  }

  /** Beside an included transaction, everything at its sender and nonce is out of the race. */
  ghost predicate WinnerStandsAlone(o: seq<TxRow>) {
    forall i, j | 0 <= i < |o| && 0 <= j < |o| && i != j && SameGroup(o[i], o[j]) && o[i].block.Some? ::
      Retired(o[j].status)
  }

  /** At most one transaction of a sender and nonce has an inclusion. */
  ghost predicate OneInclusion(o: seq<TxRow>) {
    forall i, j | 0 <= i < j < |o| && SameGroup(o[i], o[j]) :: o[i].block.None? || o[j].block.None?
  }

  /** The table's unique index: two rows of one action are never both live. */
  ghost predicate OneLivePerAction(o: seq<TxRow>) {
    forall i, j | 0 <= i < j < |o| && o[i].action.Some? && o[i].action == o[j].action ::
      !Live(o[i]) || !Live(o[j])
  }

  /** Two rows of one action spend one nonce. */
  ghost predicate OneNoncePerAction(o: seq<TxRow>) {
    forall i, j | 0 <= i < |o| && 0 <= j < |o| && o[i].action.Some? && o[i].action == o[j].action ::
      SameGroup(o[i], o[j])
  }

  ghost predicate Safe(o: seq<TxRow>) {
    StatusesMatch(o) && WinnerStandsAlone(o) && OneLivePerAction(o) && OneNoncePerAction(o)
  }

  lemma SafeHasOneInclusion(o: seq<TxRow>)
    requires Safe(o)
    ensures OneInclusion(o)
  {
  }

  lemma InclusionAt(o: seq<TxRow>, i: nat, receipt: Receipt, j: nat)
    requires i < |o| && j < |o| && j != i
    ensures var r := WithInclusion(o, i, receipt);
      && r[j] == (if Rival(o, i, j) then o[j].(status := Dropped) else o[j])
      && (Live(r[j]) ==> Live(o[j]))
      && (Unmined(o[j].status) && (SameGroup(o[j], o[i]) || (o[i].action.Some? && o[j].action == o[i].action)) ==>
            r[j].status == Dropped)
  {
  }

  /** Recording an inclusion keeps `OneLivePerAction` exactly when the action has no other live row
      that is mined already. The index is checked as the row is marked `included`, before a failed one
      is marked `reverted`. */
  lemma InclusionKeepsIndexIff(o: seq<TxRow>, i: nat, block: Block)
    requires i < |o| && OneLivePerAction(o)
    ensures OneLivePerAction(WithInclusion(o, i, Receipt(block, true)))
       <==> forall j | 0 <= j < |o| && j != i && o[i].action.Some? && o[j].action == o[i].action ::
              !(Mined(o[j].status) && Live(o[j]))
  {
    var r := WithInclusion(o, i, Receipt(block, true));
    forall j | 0 <= j < |o| && j != i && o[i].action.Some? && o[j].action == o[i].action
               && Mined(o[j].status) && Live(o[j])
      ensures !OneLivePerAction(r)
    {
      assert Live(r[j]) && Live(r[i]) && r[i].action == r[j].action;
      assert i < j || j < i;
    }
    if forall j | 0 <= j < |o| && j != i && o[i].action.Some? && o[j].action == o[i].action ::
         !(Mined(o[j].status) && Live(o[j])) {
      forall a, b | 0 <= a < b < |r| && r[a].action.Some? && r[a].action == r[b].action
        ensures !Live(r[a]) || !Live(r[b])
      {
        if a == i {
          InclusionAt(o, i, Receipt(block, true), b);
        } else if b == i {
          InclusionAt(o, i, Receipt(block, true), a);
        } else {
          InclusionAt(o, i, Receipt(block, true), a);
          InclusionAt(o, i, Receipt(block, true), b);
          assert o[a].action == o[b].action;
        }
      }
    }
  }

  /** In a safe outbox that never happens, so the index never refuses a receipt. */
  lemma InclusionIsNeverRefused(o: seq<TxRow>, i: nat, block: Block)
    requires Safe(o) && i < |o| && Awaits(o, i, {})
    ensures OneLivePerAction(WithInclusion(o, i, Receipt(block, true)))
  {
    InclusionKeepsIndexIff(o, i, block);
    forall j | 0 <= j < |o| && j != i && o[i].action.Some? && o[j].action == o[i].action
      ensures !(Mined(o[j].status) && Live(o[j]))
    {
      assert SameGroup(o[j], o[i]);
    }
  }

  lemma InclusionStandsAlone(o: seq<TxRow>, i: nat, receipt: Receipt)
    requires Safe(o) && i < |o| && Awaits(o, i, {})
    ensures WinnerStandsAlone(WithInclusion(o, i, receipt))
  {
    var r := WithInclusion(o, i, receipt);
    forall a, b | 0 <= a < |r| && 0 <= b < |r| && a != b && SameGroup(r[a], r[b]) && r[a].block.Some?
      ensures Retired(r[b].status)
    {
      assert SameGroup(o[a], o[b]) && SameGroup(o[b], o[a]);
      if a == i {
        assert !o[b].block.Some?;
        InclusionAt(o, i, receipt, b);
      } else {
        InclusionAt(o, i, receipt, a);
        assert o[a].block.Some? && b != i;
        InclusionAt(o, i, receipt, b);
      }
    }
  }

  lemma InclusionKeepsLive(o: seq<TxRow>, i: nat, receipt: Receipt)
    requires i < |o| && OneLivePerAction(WithInclusion(o, i, Receipt(receipt.block, true)))
    ensures OneLivePerAction(WithInclusion(o, i, receipt))
  {
    var included, r := WithInclusion(o, i, Receipt(receipt.block, true)), WithInclusion(o, i, receipt);
    forall a, b | 0 <= a < b < |r| && r[a].action.Some? && r[a].action == r[b].action
      ensures !Live(r[a]) || !Live(r[b])
    {
      assert included[a].action == r[a].action && included[b].action == r[b].action;
      assert (Live(r[a]) ==> Live(included[a])) && (Live(r[b]) ==> Live(included[b]));
    }
  }

  lemma InclusionKeepsNonces(o: seq<TxRow>, i: nat, receipt: Receipt)
    requires StatusesMatch(o) && OneNoncePerAction(o) && i < |o|
    ensures StatusesMatch(WithInclusion(o, i, receipt)) && OneNoncePerAction(WithInclusion(o, i, receipt))
  {
    var r := WithInclusion(o, i, receipt);
    forall a, b | 0 <= a < |r| && 0 <= b < |r| && r[a].action.Some? && r[a].action == r[b].action
      ensures SameGroup(r[a], r[b])
    {
      assert SameGroup(o[a], o[b]);
    }
  }

  lemma InclusionKeepsSafe(o: seq<TxRow>, i: nat, receipt: Receipt)
    requires Safe(o) && i < |o| && Awaits(o, i, {})
    ensures Safe(WithInclusion(o, i, receipt))
  {
    InclusionIsNeverRefused(o, i, receipt.block);
    InclusionKeepsLive(o, i, receipt);
    InclusionStandsAlone(o, i, receipt);
    InclusionKeepsNonces(o, i, receipt);
  }

  /** In a safe outbox a row still pending or submitted may be live. */
  lemma UnminedMayStand(o: seq<TxRow>, i: nat)
    requires Safe(o) && i < |o| && Unmined(o[i].status)
    ensures MayStand(o, i)
  {
    assert !Retired(o[i].status) && o[i].block.None?;
    assert forall j | 0 <= j < |o| && SameGroup(o[j], o[i]) :: o[j].block.None?;
    forall j | 0 <= j < |o| && j != i && o[i].action.Some? && o[j].action == o[i].action
      ensures !Live(o[j])
    {
      assert j < i || i < j;
    }
  }

  function Replacing(o: seq<TxRow>, i: nat, tx: TxHash): seq<TxRow>
    requires i < |o|
  {
    o[i := o[i].(status := Replaced)] + [o[i].(status := Pending, tx := tx)]
  }

  /** What the relay's writes write: a status on one row and nothing else, and, for a replacement, a
      pending row that differs in its hash alone. */
  lemma RelayWrites(o: seq<TxRow>, i: nat, tx: TxHash)
    requires i < |o|
    ensures Enabled(o, Submit(i)) ==> Moved(o, Submit(i)) == o[i := o[i].(status := Submitted)]
    ensures Enabled(o, Drop(i)) ==> Moved(o, Drop(i)) == o[i := o[i].(status := Dropped)]
    ensures Enabled(o, Replace(i, tx)) ==>
      var r := Moved(o, Replace(i, tx));
      && |r| == |o| + 1 && r[..|o|] == o[i := o[i].(status := TxStatus.Replaced)]
      && r[|o|] == o[i].(status := Pending, tx := tx)
  {
  }

  lemma SubmitKeepsSafe(o: seq<TxRow>, i: nat)
    requires Safe(o) && i < |o| && MayStand(o, i)
    ensures Safe(o[i := o[i].(status := Submitted)])
  {
    var r := o[i := o[i].(status := Submitted)];
    assert SameGroup(o[i], o[i]);
    forall a, b | 0 <= a < |r| && 0 <= b < |r| && a != b && SameGroup(r[a], r[b]) && r[a].block.Some?
      ensures Retired(r[b].status)
    {
      assert SameGroup(o[a], o[b]) && o[a].block.Some?;
    }
  }

  lemma ReplaceKeepsSafe(o: seq<TxRow>, i: nat, tx: TxHash)
    requires Safe(o) && i < |o| && MayStand(o, i)
    ensures Safe(Replacing(o, i, tx))
  {
    var r := Replacing(o, i, tx);
    assert SameGroup(o[i], o[i]);
    forall a, b | 0 <= a < |r| && 0 <= b < |r| && a != b && SameGroup(r[a], r[b]) && r[a].block.Some?
      ensures Retired(r[b].status)
    {
      assert a < |o| && a != i && o[a] == r[a];
      if b == |o| {
        assert SameGroup(o[a], o[i]);
      } else {
        assert SameGroup(o[a], o[b]);
      }
    }
    forall a, b | 0 <= a < b < |r| && r[a].action.Some? && r[a].action == r[b].action
      ensures !Live(r[a]) || !Live(r[b])
    {
      if b == |o| && a != i {
        assert o[a].action == o[i].action;
      }
    }
  }

  lemma DropKeepsSafe(o: seq<TxRow>, i: nat)
    requires Safe(o) && i < |o| && o[i].block.None?
    ensures Safe(o[i := o[i].(status := Dropped)])
  {
    var r := o[i := o[i].(status := Dropped)];
    forall a, b | 0 <= a < |r| && 0 <= b < |r| && a != b && SameGroup(r[a], r[b]) && r[a].block.Some?
      ensures Retired(r[b].status)
    {
      assert SameGroup(o[a], o[b]) && o[a].block.Some?;
    }
  }

  /** The relay marks a row submitted, replaced or dropped without looking at its status again. From
      any safe outbox, each write is safe exactly when: the row may be live, for the first two; the row
      has no inclusion, for the last. */
  lemma RelayWriteKeepsSafeIff(o: seq<TxRow>, i: nat, tx: TxHash)
    requires Safe(o) && i < |o|
    ensures Safe(o[i := o[i].(status := Submitted)]) <==> MayStand(o, i)
    ensures Safe(Replacing(o, i, tx)) <==> MayStand(o, i)
    ensures Safe(o[i := o[i].(status := Dropped)]) <==> o[i].block.None?
  {
    if MayStand(o, i) {
      SubmitKeepsSafe(o, i);
      ReplaceKeepsSafe(o, i, tx);
    }
    if o[i].block.None? {
      DropKeepsSafe(o, i);
    }
    if Safe(o[i := o[i].(status := Submitted)]) {
      LiveMeansMayStand(o, o[i := o[i].(status := Submitted)], i, i);
    }
    if Safe(Replacing(o, i, tx)) {
      assert Replacing(o, i, tx)[i].block == o[i].block;
      LiveMeansMayStand(o, Replacing(o, i, tx), i, |o|);
    }
    if Safe(o[i := o[i].(status := Dropped)]) {
      assert o[i := o[i].(status := Dropped)][i].status == Dropped;
    }
  }

  /** A safe outbox with a live, unmined row `k` like row `i`, the others as they were. */
  lemma LiveMeansMayStand(o: seq<TxRow>, r: seq<TxRow>, i: nat, k: nat)
    requires i < |o| <= |r| && k < |r| && Safe(r) && (k == i || k >= |o|)
    requires r[k].status == Submitted || r[k].status == Pending
    requires SameGroup(r[k], o[i]) && r[k].action == o[i].action && r[k].block == o[i].block
    requires forall j | 0 <= j < |o| && j != i :: r[j] == o[j]
    ensures MayStand(o, i)
  {
    assert r[k].block.None?;
    forall j | 0 <= j < |o| && SameGroup(o[j], o[i])
      ensures o[j].block.None?
    {
      assert j != i ==> SameGroup(r[j], r[k]) && (r[j].block.Some? ==> Retired(r[k].status));
    }
    forall j | 0 <= j < |o| && j != i && o[i].action.Some? && o[j].action == o[i].action
      ensures !Live(o[j])
    {
      assert r[j] == o[j] && (j < k || k < j);
    }
  }

  lemma AddKeepsSafe(o: seq<TxRow>, row: TxRow)
    requires Safe(o) && Enabled(o, Add(row))
    ensures Safe(o + [row])
  {
    var r := o + [row];
    assert forall a | 0 <= a < |o| :: SameGroup(o[a], row) ==> o[a].block.None?;
    forall a, b | 0 <= a < |r| && 0 <= b < |r| && a != b && SameGroup(r[a], r[b]) && r[a].block.Some?
      ensures Retired(r[b].status)
    {
    }
  }

  lemma ResetKeepsSafe(o: seq<TxRow>, stale: set<Block>)
    requires Safe(o)
    ensures Safe(ResetInclusions(o, stale))
  {
    var r := ResetInclusions(o, stale);
    forall a, b | 0 <= a < b < |r| && r[a].action.Some? && r[a].action == r[b].action
      ensures !Live(r[a]) || !Live(r[b])
    {
      assert SameGroup(o[a], o[b]) && SameGroup(o[b], o[a]);
    }
  }

  lemma DeepenKeepsSafe(o: seq<TxRow>, view: View, runs: Runs)
    requires Safe(o)
    ensures Safe(Deepened(o, view, runs))
  {
    var r := Deepened(o, view, runs);
    assert forall i | 0 <= i < |o| :: Live(r[i]) == Live(o[i]) && r[i].block == o[i].block && r[i].action == o[i].action
                                      && (Mined(r[i].status) == Mined(o[i].status));
    forall a, b | 0 <= a < |r| && 0 <= b < |r| && a != b && SameGroup(r[a], r[b]) && r[a].block.Some?
      ensures Retired(r[b].status)
    {
      assert SameGroup(o[a], o[b]) && o[a].block.Some?;
    }
  }

  /** Every write to the outbox keeps it safe. */
  lemma MoveKeepsSafe(o: seq<TxRow>, m: Move)
    requires Safe(o) && Enabled(o, m)
    ensures Safe(Moved(o, m))
  {
    match m
    case Reset(stale) => ResetKeepsSafe(o, stale);
    case Include(i, receipt) => InclusionKeepsSafe(o, i, receipt);
    case Deepen(view, runs) => DeepenKeepsSafe(o, view, runs);
    case Add(row) => AddKeepsSafe(o, row);
    case Submit(i) => SubmitKeepsSafe(o, i);
    case Replace(i, tx) => ReplaceKeepsSafe(o, i, tx);
    case Drop(i) => DropKeepsSafe(o, i);
  }

  // ---------------------------------------------------------------------------------------------
  // Finality
  // ---------------------------------------------------------------------------------------------

  /** Finalized rows are at or below the finalized head. */
  ghost predicate FinalizedBelow(o: seq<TxRow>, f: nat) {
    forall i | 0 <= i < |o| && o[i].status == Finalized :: o[i].block.Some? && Height(o[i].block.value) <= f
  }

  /** The finalized head a move was made at is no lower than `f`; a reorg check resets only what is
      above it. */
  ghost predicate FinalizedHeadAtLeast(m: Move, f: nat, f': nat) {
    f <= f' &&
    match m
    case Reset(stale) => forall b | b in stale :: f' < Height(b)
    case Deepen(view, _) => FinalizedHead(view) == f'
    case _ => true
  }

  ghost predicate FinalizedRowsKept(o: seq<TxRow>, o': seq<TxRow>) {
    |o| <= |o'| && forall i | 0 <= i < |o| && o[i].status == Finalized :: o'[i] == o[i]
  }

  lemma MoveKeepsFinalized(o: seq<TxRow>, m: Move, f: nat, f': nat)
    requires Safe(o) && Enabled(o, m) && FinalizedBelow(o, f) && FinalizedHeadAtLeast(m, f, f')
    ensures FinalizedRowsKept(o, Moved(o, m))
    ensures FinalizedBelow(Moved(o, m), f')
  {
  }

  // ---------------------------------------------------------------------------------------------
  // Every run of writes
  // ---------------------------------------------------------------------------------------------

  ghost predicate Run(os: seq<seq<TxRow>>, moves: seq<Move>, heads: seq<nat>) {
    && |os| == |moves| + 1 == |heads|
    && os[0] == []
    && (forall i | 0 <= i < |moves| :: Enabled(os[i], moves[i]) && os[i + 1] == Moved(os[i], moves[i]))
    && (forall i | 0 <= i < |moves| :: FinalizedHeadAtLeast(moves[i], heads[i], heads[i + 1]))
  }

  lemma {:induction false} RunIsSafe(os: seq<seq<TxRow>>, moves: seq<Move>, heads: seq<nat>, n: nat)
    requires Run(os, moves, heads) && n <= |moves|
    ensures Safe(os[n]) && FinalizedBelow(os[n], heads[n])
  {
    if n > 0 {
      RunIsSafe(os, moves, heads, n - 1);
      MoveKeepsSafe(os[n - 1], moves[n - 1]);
      MoveKeepsFinalized(os[n - 1], moves[n - 1], heads[n - 1], heads[n]);
    }
  }

  /** Through every interleaving of polls, reorgs and relay writes, each sender and nonce has at
      most one included transaction, each signed action at most one live one, and a finalized row
      is never reset, dropped or changed again. */
  lemma {:induction false} OutboxSafeForGood(os: seq<seq<TxRow>>, moves: seq<Move>, heads: seq<nat>, m: nat, n: nat)
    requires Run(os, moves, heads) && m <= n <= |moves|
    ensures OneInclusion(os[n]) && OneLivePerAction(os[n])
    ensures FinalizedRowsKept(os[m], os[n])
  {
    RunIsSafe(os, moves, heads, n);
    SafeHasOneInclusion(os[n]);
    if m < n {
      OutboxSafeForGood(os, moves, heads, m, n - 1);
      RunIsSafe(os, moves, heads, n - 1);
      MoveKeepsFinalized(os[n - 1], moves[n - 1], heads[n - 1], heads[n]);
      KeptTwice(os[m], os[n - 1], os[n]);
    }
  }

  /** And a write that meets none of it, in a run of the source's own: the relay records a broadcast
      only after the indexer has recorded its inclusion. The row then says `submitted` in a block, and
      nothing the indexer does moves it on: it is not waited for and does not deepen. Only a
      reorganisation of that block resets it. */
  lemma LateBroadcastStrandsRow(row: TxRow, receipt: Receipt)
    returns (os: seq<seq<TxRow>>, moves: seq<Move>, heads: seq<nat>)
    requires row.status == Pending && row.block.None?
    ensures Run(os, moves, heads) && |os[|moves|]| == 1 && os[|moves|][0].block == Some(receipt.block)
    ensures var late := os[|moves|][0 := os[|moves|][0].(status := Submitted)];
      && !Safe(late)
      && (forall unwatched :: Awaiting(late, unwatched) == [])
      && (forall view, runs :: Deepened(late, view, runs) == late)
      && (forall stale :: ResetInclusions(late, stale) == late <==> receipt.block !in stale)
  {
    os, moves, heads := [[], [row], WithInclusion([row], 0, receipt)], [Add(row), Include(0, receipt)], [0, 0, 0];
    assert Awaits([row], 0, {});
    var late := os[2][0 := os[2][0].(status := Submitted)];
    assert !Mined(late[0].status) && late[0].block.Some?;
    forall unwatched
      ensures Awaiting(late, unwatched) == []
    {
      assert !Awaits(late, 0, unwatched);
      assert AwaitingIn(late, 0, unwatched) == AwaitingIn(late, 1, unwatched) == [];
    }
    forall stale
      ensures ResetInclusions(late, stale) == late <==> receipt.block !in stale
    {
      assert ResetInclusions(late, stale)[0] == ResetRow(late[0], stale);
    }
  }

  // ---------------------------------------------------------------------------------------------
  // A poll is such a run of writes
  // ---------------------------------------------------------------------------------------------

  /** During a pass, an included group was included before it or settled in it. */
  ghost predicate PassMatches(o: seq<TxRow>, p: Pass) {
    && |p.outbox| == |o|
    && (forall j | 0 <= j < |o| ::
          SameGroup(p.outbox[j], o[j]) && p.outbox[j].tx == o[j].tx && p.outbox[j].run == o[j].run)
    && (forall j | 0 <= j < |o| && p.outbox[j].block.Some? ::
          o[j].block.Some? || (o[j].sender, o[j].nonce) in p.settled)
    && (forall j | 0 <= j < |o| && p.outbox[j].status != o[j].status && p.outbox[j].block.None? ::
          p.outbox[j].status == Dropped)
  }

  /** A row still waited for when its turn comes, unless its group was settled in this pass. */
  lemma StillAwaits(o: seq<TxRow>, p: Pass, i: nat, unwatched: set<RunId>)
    requires PassMatches(o, p) && i < |o| && Awaits(o, i, unwatched)
    requires (p.outbox[i].sender, p.outbox[i].nonce) !in p.settled
    ensures Awaits(p.outbox, i, {})
  {
    forall j | 0 <= j < |o| && SameGroup(p.outbox[j], p.outbox[i])
      ensures p.outbox[j].block.None?
    {
      assert SameGroup(o[j], o[i]);
    }
  }

  lemma InclusionMatches(o: seq<TxRow>, p: Pass, i: nat, view: View)
    requires PassMatches(o, p) && i < |o|
    ensures PassMatches(o, ReceiptStep(p, i, view))
  {
    var q := ReceiptStep(p, i, view);
    if q != p {
      var receipt := view.receipts[p.outbox[i].tx];
      forall j | 0 <= j < |o| && j != i
        ensures q.outbox[j] == p.outbox[j] || q.outbox[j] == p.outbox[j].(status := Dropped)
      {
        InclusionAt(p.outbox, i, receipt, j);
      }
    }
  }

  /** Rows waited for before a pass begins. */
  ghost predicate AllAwait(o: seq<TxRow>, waiting: seq<nat>, unwatched: set<RunId>) {
    forall i | i in waiting :: i < |o| && Awaits(o, i, unwatched)
  }

  lemma StepKeepsSafe(o: seq<TxRow>, p: Pass, i: nat, unwatched: set<RunId>, view: View)
    requires PassMatches(o, p) && i < |o| && Awaits(o, i, unwatched) && Safe(p.outbox)
    ensures Safe(ReceiptStep(p, i, view).outbox) && PassMatches(o, ReceiptStep(p, i, view))
  {
    InclusionMatches(o, p, i, view);
    if ReceiptStep(p, i, view) != p {
      StillAwaits(o, p, i, unwatched);
      InclusionKeepsSafe(p.outbox, i, view.receipts[p.outbox[i].tx]);
    }
  }

  lemma {:induction false} PassKeepsSafe(o: seq<TxRow>, waiting: seq<nat>, unwatched: set<RunId>, n: nat, view: View)
    requires Safe(o) && n <= |waiting| && AllAwait(o, waiting, unwatched)
    ensures Safe(Passed(o, waiting, n, view).outbox) && PassMatches(o, Passed(o, waiting, n, view))
  {
    if n > 0 {
      PassKeepsSafe(o, waiting, unwatched, n - 1, view);
      assert waiting[n - 1] in waiting;
      StepKeepsSafe(o, Passed(o, waiting, n - 1, view), waiting[n - 1], unwatched, view);
    }
  }

  lemma KeptTwice(o: seq<TxRow>, o1: seq<TxRow>, o2: seq<TxRow>)
    requires FinalizedRowsKept(o, o1) && FinalizedRowsKept(o1, o2)
    ensures FinalizedRowsKept(o, o2)
  {
  }

  lemma InclusionKeepsFinalized(o: seq<TxRow>, i: nat, receipt: Receipt, f: nat)
    requires i < |o| && !o[i].status.Finalized? && FinalizedBelow(o, f)
    ensures FinalizedRowsKept(o, WithInclusion(o, i, receipt)) && FinalizedBelow(WithInclusion(o, i, receipt), f)
  {
  }

  /** A pass records inclusions, which finalized rows never have a part in. */
  lemma {:induction false} PassKeepsFinalized(o: seq<TxRow>, waiting: seq<nat>, unwatched: set<RunId>, n: nat,
                                              view: View, f: nat)
    requires Safe(o) && FinalizedBelow(o, f) && n <= |waiting| && AllAwait(o, waiting, unwatched)
    ensures FinalizedRowsKept(o, Passed(o, waiting, n, view).outbox)
    ensures FinalizedBelow(Passed(o, waiting, n, view).outbox, f)
  {
    if n > 0 {
      PassKeepsFinalized(o, waiting, unwatched, n - 1, view, f);
      PassKeepsSafe(o, waiting, unwatched, n - 1, view);
      assert waiting[n - 1] in waiting;
      StepKeepsFinalized(o, Passed(o, waiting, n - 1, view), waiting[n - 1], unwatched, view, f);
    }
  }

  lemma StepKeepsFinalized(o: seq<TxRow>, p: Pass, i: nat, unwatched: set<RunId>, view: View, f: nat)
    requires PassMatches(o, p) && i < |o| && Awaits(o, i, unwatched)
    requires FinalizedRowsKept(o, p.outbox) && FinalizedBelow(p.outbox, f)
    ensures FinalizedRowsKept(o, ReceiptStep(p, i, view).outbox) && FinalizedBelow(ReceiptStep(p, i, view).outbox, f)
  {
    if ReceiptStep(p, i, view) != p {
      var receipt := view.receipts[p.outbox[i].tx];
      StillAwaits(o, p, i, unwatched);
      InclusionKeepsFinalized(p.outbox, i, receipt, f);
      KeptTwice(o, p.outbox, WithInclusion(p.outbox, i, receipt));
    }
  }

  lemma CheckResets(s: State, view: View, runs: Runs)
    ensures forall b | b in Stale(s, view, runs) :: FinalizedHead(view) < Height(b)
    ensures Checked(s, view, runs).outbox == ResetInclusions(s.outbox, Stale(s, view, runs))
  {
    if Stale(s, view, runs) == {} {
      assert ResetInclusions(s.outbox, {}) == s.outbox;
    }
  }

  /** A poll, completed or aborted anywhere, leaves a safe outbox safe. */
  lemma PollKeepsSafe(start: nat, s: State, view: View, runs: Runs, n: nat)
    requires Safe(s.outbox) && Consistent(view) && n <= WaitingCount(s, view, runs)
    ensures Safe(Checked(s, view, runs).outbox)
    ensures Safe(AfterReceipts(s, view, runs, n).outbox)
    ensures Safe(Polled(start, s, view, runs).outbox)
  {
    CheckResets(s, view, runs);
    MoveKeepsSafe(s.outbox, Reset(Stale(s, view, runs)));
    var o := Checked(s, view, runs).outbox;
    var waiting := Awaiting(o, runs.unwatched);
    PassKeepsSafe(o, waiting, runs.unwatched, n, view);
    PassKeepsSafe(o, waiting, runs.unwatched, WaitingCount(s, view, runs), view);
    MoveKeepsSafe(AfterRecording(start, s, view, runs).outbox, Deepen(view, runs));
  }

  /** Nor does one, at a finalized head no lower than any before it, change a finalized row. */
  lemma PollKeepsFinalized(start: nat, s: State, view: View, runs: Runs, n: nat, f: nat)
    requires Safe(s.outbox) && Consistent(view) && n <= WaitingCount(s, view, runs)
    requires FinalizedBelow(s.outbox, f) && f <= FinalizedHead(view)
    ensures var head := FinalizedHead(view);
      && FinalizedRowsKept(s.outbox, AfterReceipts(s, view, runs, n).outbox)
      && FinalizedBelow(AfterReceipts(s, view, runs, n).outbox, head)
      && FinalizedRowsKept(s.outbox, Polled(start, s, view, runs).outbox)
      && FinalizedBelow(Polled(start, s, view, runs).outbox, head)
  {
    var head, stale, all := FinalizedHead(view), Stale(s, view, runs), WaitingCount(s, view, runs);
    CheckResets(s, view, runs);
    MoveKeepsSafe(s.outbox, Reset(stale));
    MoveKeepsFinalized(s.outbox, Reset(stale), f, head);
    var o := Checked(s, view, runs).outbox;
    var waiting := Awaiting(o, runs.unwatched);
    PassKeepsFinalized(o, waiting, runs.unwatched, n, view, head);
    PassKeepsFinalized(o, waiting, runs.unwatched, all, view, head);
    PassKeepsSafe(o, waiting, runs.unwatched, all, view);
    MoveKeepsFinalized(AfterRecording(start, s, view, runs).outbox, Deepen(view, runs), head, head);
  }
}
