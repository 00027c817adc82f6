/** What a poll makes of every row, said of the tables before it and the chain it read. */
module PollOutcome {
  import opened Common
  import opened Chain
  import opened IndexerSpec

  // ---------------------------------------------------------------------------------------------
  // The receipts of one pass
  // ---------------------------------------------------------------------------------------------

  /** The indexer looks for this row's receipt: nothing at its nonce is recorded as mined yet. */
  ghost predicate Waited(o: seq<TxRow>, i: nat, unwatched: set<RunId>) {
    && i < |o| && o[i].status in {Pending, Submitted, TxStatus.Replaced, Dropped}
    && o[i].block.None? && o[i].run !in unwatched
    && forall j | 0 <= j < |o| && o[j].sender == o[i].sender && o[j].nonce == o[i].nonce :: o[j].block.None?
  }

  predicate HasReceipt(row: TxRow, view: View) {
    row.tx in view.receipts && Height(view.receipts[row.tx].block) <= Height(view.tip)
  }

  predicate OfGroup(a: TxRow, b: TxRow) { a.sender == b.sender && a.nonce == b.nonce }

  /** The first row waited for at its nonce that has a receipt. */
  ghost predicate Wins(o: seq<TxRow>, i: nat, view: View, unwatched: set<RunId>) {
    && Waited(o, i, unwatched) && HasReceipt(o[i], view)
    && forall j: nat | j < i && Waited(o, j, unwatched) && OfGroup(o[j], o[i]) :: !HasReceipt(o[j], view)
  }

  /** Pending or submitted, at the nonce or for the action of such a row among the first `n`. */
  ghost predicate LosesBefore(o: seq<TxRow>, i: nat, n: nat, view: View, unwatched: set<RunId>)
    requires i < |o|
  {
    o[i].status in {Pending, Submitted}
    && exists k: nat | k < n && k != i :: Wins(o, k, view, unwatched) && RivalOf(o[k], o[i])
  }

  predicate RivalOf(winner: TxRow, row: TxRow) {
    OfGroup(winner, row) || (winner.action.Some? && row.action == winner.action)
  }

  /** Row `i` once the pass has been over the first `n`. */
  ghost predicate RowIs(o: seq<TxRow>, i: nat, n: nat, view: View, unwatched: set<RunId>, row: TxRow)
    requires i < |o|
  {
    if i < n && Wins(o, i, view, unwatched) then
      var receipt := view.receipts[o[i].tx];
      row == o[i].(block := Some(receipt.block), status := if receipt.succeeded then Included else Reverted)
    else if LosesBefore(o, i, n, view, unwatched) then row == o[i].(status := Dropped)
    else row == o[i]
  }

  ghost predicate PassIs(o: seq<TxRow>, n: nat, view: View, unwatched: set<RunId>, p: Pass) {
    && |p.outbox| == |o|
    && (forall i {:trigger RowIs(o, i, n, view, unwatched, p.outbox[i])} | 0 <= i < |o| ::
          RowIs(o, i, n, view, unwatched, p.outbox[i]))
    && (forall i {:trigger GroupWon(o, i, n, view, unwatched)} | 0 <= i < |o| ::
          (o[i].sender, o[i].nonce) in p.settled <==> GroupWon(o, i, n, view, unwatched))
  }

  ghost predicate GroupWon(o: seq<TxRow>, i: nat, n: nat, view: View, unwatched: set<RunId>)
    requires i < |o|
  {
    exists k: nat | k < n :: Wins(o, k, view, unwatched) && OfGroup(o[k], o[i])
  }

  lemma WaitedIff(o: seq<TxRow>, i: nat, unwatched: set<RunId>)
    requires i < |o|
    ensures Waited(o, i, unwatched) <==> Awaits(o, i, unwatched)
  {
  }

  /** Of the rows waited for at one nonce that have a receipt, there is a first. */
  lemma {:induction false} SomeoneWins(o: seq<TxRow>, i: nat, view: View, unwatched: set<RunId>)
    returns (k: nat)
    requires Waited(o, i, unwatched) && HasReceipt(o[i], view)
    ensures k <= i && Wins(o, k, view, unwatched) && OfGroup(o[k], o[i])
  {
    if Wins(o, i, view, unwatched) {
      k := i;
    } else {
      var j: nat :| j < i && Waited(o, j, unwatched) && OfGroup(o[j], o[i]) && HasReceipt(o[j], view);
      k := SomeoneWins(o, j, view, unwatched);
    }
  }

  /** A row whose turn it is wins exactly when it has a receipt and its group has none yet. */
  lemma WinsIff(o: seq<TxRow>, i: nat, view: View, unwatched: set<RunId>)
    requires Waited(o, i, unwatched)
    ensures Wins(o, i, view, unwatched) <==> HasReceipt(o[i], view) && !GroupWon(o, i, i, view, unwatched)
  {
    if HasReceipt(o[i], view) && !Wins(o, i, view, unwatched) {
      var j: nat :| j < i && Waited(o, j, unwatched) && OfGroup(o[j], o[i]) && HasReceipt(o[j], view);
      var k := SomeoneWins(o, j, view, unwatched);
      assert k < i && OfGroup(o[k], o[i]);
    }
  }

  /** Where no more rows win, no row changes. */
  lemma RowStays(o: seq<TxRow>, i: nat, n: nat, m: nat, view: View, unwatched: set<RunId>, row: TxRow)
    requires i < |o| && n <= m && forall k: nat | n <= k < m :: !Wins(o, k, view, unwatched)
    ensures RowIs(o, i, n, view, unwatched, row) <==> RowIs(o, i, m, view, unwatched, row)
    ensures GroupWon(o, i, n, view, unwatched) <==> GroupWon(o, i, m, view, unwatched)
  {
    if k: nat :| k < m && Wins(o, k, view, unwatched) && OfGroup(o[k], o[i]) {
      assert k < n;
    }
    assert LosesBefore(o, i, n, view, unwatched) <==> LosesBefore(o, i, m, view, unwatched);
  }

  lemma NoMoreWin(o: seq<TxRow>, n: nat, m: nat, view: View, unwatched: set<RunId>, p: Pass)
    requires PassIs(o, n, view, unwatched, p) && n <= m && forall k: nat | n <= k < m :: !Wins(o, k, view, unwatched)
    ensures PassIs(o, m, view, unwatched, p)
  {
    forall i | 0 <= i < |o|
      ensures RowIs(o, i, m, view, unwatched, p.outbox[i])
      ensures (o[i].sender, o[i].nonce) in p.settled <==> GroupWon(o, i, m, view, unwatched)
    {
      assert RowIs(o, i, n, view, unwatched, p.outbox[i]);
      RowStays(o, i, n, m, view, unwatched, p.outbox[i]);
    }
  }

  lemma LosesNext(o: seq<TxRow>, i: nat, view: View, unwatched: set<RunId>, j: nat)
    requires i < |o| && Wins(o, i, view, unwatched) && j < |o| && j != i
    ensures LosesBefore(o, j, i + 1, view, unwatched) <==>
      LosesBefore(o, j, i, view, unwatched) || (o[j].status in {Pending, Submitted} && RivalOf(o[i], o[j]))
  {
    if LosesBefore(o, j, i, view, unwatched) {
      var k: nat :| k < i && k != j && Wins(o, k, view, unwatched) && RivalOf(o[k], o[j]);
      assert k < i + 1;
    }
    if o[j].status in {Pending, Submitted} && RivalOf(o[i], o[j]) {
      assert i < i + 1;
    }
  }

  /** Recording row `i`'s receipt, on the rows as the pass has them. */
  lemma InclusionIs(o: seq<TxRow>, i: nat, view: View, unwatched: set<RunId>, rows: seq<TxRow>, j: nat)
    requires i < |o| && Wins(o, i, view, unwatched) && j < |o| && |rows| == |o|
    requires RowIs(o, i, i, view, unwatched, rows[i]) && RowIs(o, j, i, view, unwatched, rows[j])
    ensures RowIs(o, j, i + 1, view, unwatched, WithInclusion(rows, i, view.receipts[o[i].tx])[j])
  {
    var row := WithInclusion(rows, i, view.receipts[o[i].tx])[j];
    if j != i {
      LosesNext(o, i, view, unwatched, j);
      assert row == if Unmined(rows[j].status) && RivalOf(o[i], o[j]) then rows[j].(status := Dropped) else rows[j];
    }
  }

  lemma StepSettles(o: seq<TxRow>, i: nat, view: View, unwatched: set<RunId>, settled: set<(nat, nat)>, j: nat)
    requires i < |o| && Wins(o, i, view, unwatched) && j < |o|
    requires (o[j].sender, o[j].nonce) in settled <==> GroupWon(o, j, i, view, unwatched)
    ensures (o[j].sender, o[j].nonce) in settled + {(o[i].sender, o[i].nonce)}
       <==> GroupWon(o, j, i + 1, view, unwatched)
  {
    if GroupWon(o, j, i + 1, view, unwatched) {
      var k: nat :| k < i + 1 && Wins(o, k, view, unwatched) && OfGroup(o[k], o[j]);
      assert k == i || k < i;
    }
    if GroupWon(o, j, i, view, unwatched) {
      var k: nat :| k < i && Wins(o, k, view, unwatched) && OfGroup(o[k], o[j]);
      assert k < i + 1;
    }
    if OfGroup(o[i], o[j]) {
      assert i < i + 1;
    }
  }

  lemma RecordingIs(o: seq<TxRow>, i: nat, view: View, unwatched: set<RunId>, p: Pass)
    requires PassIs(o, i, view, unwatched, p) && i < |o| && Wins(o, i, view, unwatched)
    ensures var receipt := view.receipts[o[i].tx];
      PassIs(o, i + 1, view, unwatched,
             Pass(WithInclusion(p.outbox, i, receipt), p.settled + {(o[i].sender, o[i].nonce)},
                  p.logs + EventsOfTx(receipt.block, o[i].tx)))
  {
    assert RowIs(o, i, i, view, unwatched, p.outbox[i]);
    forall j | 0 <= j < |o|
      ensures RowIs(o, j, i + 1, view, unwatched, WithInclusion(p.outbox, i, view.receipts[o[i].tx])[j])
      ensures (o[j].sender, o[j].nonce) in p.settled + {(o[i].sender, o[i].nonce)}
         <==> GroupWon(o, j, i + 1, view, unwatched)
    {
      InclusionIs(o, i, view, unwatched, p.outbox, j);
      StepSettles(o, i, view, unwatched, p.settled, j);
    }
  }

  lemma StepIs(o: seq<TxRow>, i: nat, view: View, unwatched: set<RunId>, p: Pass)
    requires PassIs(o, i, view, unwatched, p) && Waited(o, i, unwatched)
    ensures PassIs(o, i + 1, view, unwatched, ReceiptStep(p, i, view))
  {
    assert RowIs(o, i, i, view, unwatched, p.outbox[i]);
    WinsIff(o, i, view, unwatched);
    if Wins(o, i, view, unwatched) {
      RecordingIs(o, i, view, unwatched, p);
    } else {
      NoMoreWin(o, i, i + 1, view, unwatched, p);
    }
  }

  /** How far a pass has been after its first `n` waiting rows. */
  function Reached(waiting: seq<nat>, n: nat): nat
    requires n <= |waiting|
  {
    if n == 0 then 0 else waiting[n - 1] + 1
  }

  /** From one row waited for to the next. */
  lemma NextStep(o: seq<TxRow>, n: nat, i: nat, view: View, unwatched: set<RunId>, p: Pass)
    requires PassIs(o, n, view, unwatched, p) && n <= i && Waited(o, i, unwatched)
    requires forall j: nat | n <= j < i :: !Waited(o, j, unwatched)
    ensures PassIs(o, i + 1, view, unwatched, ReceiptStep(p, i, view))
  {
    NoMoreWin(o, n, i, view, unwatched, p);
    StepIs(o, i, view, unwatched, p);
  }

  /** The next waiting row is the next one waited for. */
  lemma NextWaiting(o: seq<TxRow>, unwatched: set<RunId>, n: nat)
    requires 0 < n <= |Awaiting(o, unwatched)|
    ensures var waiting := Awaiting(o, unwatched);
      && Reached(waiting, n - 1) <= waiting[n - 1] && Waited(o, waiting[n - 1], unwatched)
      && forall j: nat | Reached(waiting, n - 1) <= j < waiting[n - 1] :: !Waited(o, j, unwatched)
  {
    var waiting := Awaiting(o, unwatched);
    assert waiting[n - 1] in waiting;
    WaitedIff(o, waiting[n - 1], unwatched);
    if n > 1 {
      assert waiting[n - 2] < waiting[n - 1];
    }
    forall j: nat | Reached(waiting, n - 1) <= j < waiting[n - 1]
      ensures !Waited(o, j, unwatched)
    {
      NotBetween(o, unwatched, n, j);
    }
  }

  /** These are the rows waited for, first to last. */
  ghost predicate ListsWaited(o: seq<TxRow>, unwatched: set<RunId>, waiting: seq<nat>) {
    && (forall i | i in waiting :: i < |o|)
    && (forall n: nat | n < |waiting| :: NextIs(o, unwatched, waiting, n))
    && (forall j: nat | Reached(waiting, |waiting|) <= j :: !Waited(o, j, unwatched))
  }

  ghost predicate NextIs(o: seq<TxRow>, unwatched: set<RunId>, waiting: seq<nat>, n: nat)
    requires n < |waiting|
  {
    && Reached(waiting, n) <= waiting[n] && Waited(o, waiting[n], unwatched)
    && forall j: nat | Reached(waiting, n) <= j < waiting[n] :: !Waited(o, j, unwatched)
  }

  lemma AwaitingListsWaited(o: seq<TxRow>, unwatched: set<RunId>)
    ensures ListsWaited(o, unwatched, Awaiting(o, unwatched))
  {
    var waiting := Awaiting(o, unwatched);
    forall n: nat | n < |waiting|
      ensures NextIs(o, unwatched, waiting, n)
    {
      NextWaiting(o, unwatched, n + 1);
    }
    forall j: nat | Reached(waiting, |waiting|) <= j
      ensures !Waited(o, j, unwatched)
    {
      if j < |o| {
        WaitedIff(o, j, unwatched);
      }
    }
  }

  lemma {:induction false} EveryPass(o: seq<TxRow>, unwatched: set<RunId>, waiting: seq<nat>, n: nat, view: View)
    requires ListsWaited(o, unwatched, waiting) && n <= |waiting|
    ensures PassIs(o, Reached(waiting, n), view, unwatched, Passed(o, waiting, n, view))
  {
    PassedIs(o, waiting, n, view);
    if n == 0 {
      NoRowYet(o, view, unwatched);
    } else {
      EveryPass(o, unwatched, waiting, n - 1, view);
      NextOf(o, unwatched, waiting, n - 1, view, Passed(o, waiting, n - 1, view));
    }
  }

  lemma NoRowYet(o: seq<TxRow>, view: View, unwatched: set<RunId>)
    ensures PassIs(o, 0, view, unwatched, Pass(o, {}, {}))
  {
  }

  lemma PassedIs(o: seq<TxRow>, waiting: seq<nat>, n: nat, view: View)
    requires n <= |waiting| && forall i | i in waiting :: i < |o|
    ensures n == 0 ==> Passed(o, waiting, n, view) == Pass(o, {}, {})
    ensures n > 0 ==> waiting[n - 1] in waiting
    ensures n > 0 ==> Passed(o, waiting, n, view) == ReceiptStep(Passed(o, waiting, n - 1, view), waiting[n - 1], view)
  {
  }

  lemma NextOf(o: seq<TxRow>, unwatched: set<RunId>, waiting: seq<nat>, n: nat, view: View, p: Pass)
    requires ListsWaited(o, unwatched, waiting) && n < |waiting|
    requires PassIs(o, Reached(waiting, n), view, unwatched, p)
    ensures waiting[n] < |p.outbox|
    ensures PassIs(o, Reached(waiting, n + 1), view, unwatched, ReceiptStep(p, waiting[n], view))
  {
    assert NextIs(o, unwatched, waiting, n) && waiting[n] in waiting;
    NextStep(o, Reached(waiting, n), waiting[n], view, unwatched, p);
  }

  lemma NotBetween(o: seq<TxRow>, unwatched: set<RunId>, n: nat, j: nat)
    requires 0 < n <= |Awaiting(o, unwatched)|
    requires Reached(Awaiting(o, unwatched), n - 1) <= j < Awaiting(o, unwatched)[n - 1] <= |o|
    ensures !Waited(o, j, unwatched)
  {
    WaitedIff(o, j, unwatched);
  }

  /** A whole pass, over every row. */
  lemma WholePass(o: seq<TxRow>, unwatched: set<RunId>, view: View)
    ensures var waiting := Awaiting(o, unwatched);
      PassIs(o, |o|, view, unwatched, Passed(o, waiting, |waiting|, view))
  {
    var waiting := Awaiting(o, unwatched);
    AwaitingListsWaited(o, unwatched);
    EveryPass(o, unwatched, waiting, |waiting|, view);
    if waiting != [] {
      assert waiting[|waiting| - 1] in waiting;
    }
    NoMoreWin(o, Reached(waiting, |waiting|), |o|, view, unwatched, Passed(o, waiting, |waiting|, view));
  }

  // ---------------------------------------------------------------------------------------------
  // A completed poll
  // ---------------------------------------------------------------------------------------------

  /** The reorg check finds this block gone: unfinalized, off the chain, and the block of a canonical
      event or an inclusion of a watched run, or of a snapshot of one with its session open. */
  ghost predicate FoundStale(s: State, view: View, runs: Runs, b: Block) {
    && !IsFinal(view, b) && !OnChain(b, view.tip)
    && ((exists k :: k in s.events && s.events[k].canonical && k.block == b
                     && (s.events[k].run.Some? ==> s.events[k].run.value !in runs.unwatched))
        || (exists row :: row in s.outbox && row.block == Some(b) && row.run !in runs.unwatched)
        || (exists p :: p in s.snapshots && p.canonical && p.block == b && p.run in runs.open))
  }

  predicate IsFinal(view: View, b: Block) { Height(b) <= view.finalizedTag && Height(b) <= Height(view.tip) }

  /** The block has the run's threshold of blocks on it, counting itself. */
  predicate IsDeep(view: View, runs: Runs, run: RunId, b: Block) {
    run in runs.thresholds && Height(b) + runs.thresholds[run] <= Height(view.tip) + 1
  }

  /** A row as the check leaves it. */
  ghost predicate CheckedRow(s: State, view: View, runs: Runs, i: nat, row: TxRow)
    requires i < |s.outbox|
  {
    if s.outbox[i].block.Some? && FoundStale(s, view, runs, s.outbox[i].block.value)
    then row == s.outbox[i].(status := Submitted, block := None)
    else row == s.outbox[i]
  }

  /** A row as the poll ends, from the outbox the check left: the first mined of its nonce takes its
      receipt's block and, where the receipt failed, `reverted`, and otherwise its depth's status; its
      unmined rivals are dropped; any other included row has its depth's status, and the rest stay. */
  ghost predicate PolledRow(o: seq<TxRow>, i: nat, view: View, runs: Runs, row: TxRow)
    requires i < |o|
  {
    if Wins(o, i, view, runs.unwatched) then
      var receipt := view.receipts[o[i].tx];
      && row == o[i].(block := Some(receipt.block), status := row.status)
      && (row.status.Reverted? <==> !receipt.succeeded)
      && (receipt.succeeded ==>
            && (row.status.Finalized? <==> IsFinal(view, receipt.block))
            && (row.status.Confirmed? <==>
                  !IsFinal(view, receipt.block) && IsDeep(view, runs, o[i].run, receipt.block))
            && (row.status.Included? <==>
                  !IsFinal(view, receipt.block) && !IsDeep(view, runs, o[i].run, receipt.block)))
    else if LosesBefore(o, i, |o|, view, runs.unwatched) then row == o[i].(status := Dropped)
    else if o[i].block.Some? && o[i].status in {Included, Confirmed} then
      var b := o[i].block.value;
      row == o[i].(status :=
                     if IsFinal(view, b) then Finalized
                     else if IsDeep(view, runs, o[i].run, b) then Confirmed else o[i].status)
    else row == o[i]
  }

  lemma StaleIff(s: State, view: View, runs: Runs, b: Block)
    ensures b in Stale(s, view, runs) <==> FoundStale(s, view, runs, b)
  {
    if FoundStale(s, view, runs, b) {
      if row :| row in s.outbox && row.block == Some(b) && row.run !in runs.unwatched {
        var i :| 0 <= i < |s.outbox| && s.outbox[i] == row;
        assert RowIsChecked(s.outbox[i], FinalizedHead(view), runs);
      }
      if p :| p in s.snapshots && p.canonical && p.block == b && p.run in runs.open {
        var i :| 0 <= i < |s.snapshots| && s.snapshots[i] == p;
        assert SnapshotIsChecked(s.snapshots[i], FinalizedHead(view), runs);
      }
    }
  }

  lemma CheckedRows(s: State, view: View, runs: Runs)
    ensures |Checked(s, view, runs).outbox| == |s.outbox|
    ensures forall i | 0 <= i < |s.outbox| :: CheckedRow(s, view, runs, i, Checked(s, view, runs).outbox[i])
  {
    forall i | 0 <= i < |s.outbox|
      ensures CheckedRow(s, view, runs, i, Checked(s, view, runs).outbox[i])
    {
      if s.outbox[i].block.Some? {
        StaleIff(s, view, runs, s.outbox[i].block.value);
      }
    }
  }

  /** Every row of a completed poll. */
  lemma PolledRows(start: nat, s: State, view: View, runs: Runs)
    requires Consistent(view)
    ensures var o, t := Checked(s, view, runs).outbox, Polled(start, s, view, runs).outbox;
      && |t| == |o| == |s.outbox|
      && (forall i | 0 <= i < |o| :: CheckedRow(s, view, runs, i, o[i]) && PolledRow(o, i, view, runs, t[i]))
  {
    var o := Checked(s, view, runs).outbox;
    CheckedRows(s, view, runs);
    WholePass(o, runs.unwatched, view);
    var p := Passed(o, Awaiting(o, runs.unwatched), |Awaiting(o, runs.unwatched)|, view);
    forall i | 0 <= i < |o|
      ensures PolledRow(o, i, view, runs, Polled(start, s, view, runs).outbox[i])
    {
      assert RowIs(o, i, |o|, view, runs.unwatched, p.outbox[i]);
      SettledRowIs(o, i, view, runs, p.outbox[i]);
    }
  }

  lemma SettledRowIs(o: seq<TxRow>, i: nat, view: View, runs: Runs, row: TxRow)
    requires i < |o| && RowIs(o, i, |o|, view, runs.unwatched, row)
    ensures PolledRow(o, i, view, runs, SettledRow(row, view, runs))
  {
  }

  // ---------------------------------------------------------------------------------------------
  // The other tables
  // ---------------------------------------------------------------------------------------------

  /** An event row keeps the run it was first recorded for, the run whose session its log names. */
  lemma EventRuns(start: nat, s: State, view: View, runs: Runs, k: Key)
    requires Consistent(view) && k in Polled(start, s, view, runs).events
    ensures var row := Polled(start, s, view, runs).events[k];
      if k in s.events then row.run == s.events[k].run
      else IsEvent(k) && row.canonical
           && match row.run
              case Some(run) => SessionOf(k) in runs.bySession && runs.bySession[SessionOf(k)] == run
              case None => SessionOf(k) !in runs.bySession
  {
    PollLogsAreOnChain(start, s, view, runs);
  }

  /** A snapshot is invalidated exactly when its block is found gone while its run's session is open. */
  lemma PolledSnapshots(start: nat, s: State, view: View, runs: Runs, i: nat)
    requires Consistent(view) && i < |s.snapshots|
    ensures var t := Polled(start, s, view, runs).snapshots;
      && |t| == |s.snapshots| && t[i].run == s.snapshots[i].run && t[i].block == s.snapshots[i].block
      && (t[i].canonical <==>
            s.snapshots[i].canonical
            && !(s.snapshots[i].run in runs.open && FoundStale(s, view, runs, s.snapshots[i].block)))
  {
    StaleIff(s, view, runs, s.snapshots[i].block);
  }

  /** Not past the cursor, nor past a block found gone. */
  ghost predicate MayScanFrom(s: State, view: View, runs: Runs, next: nat) {
    next <= s.next && forall b | FoundStale(s, view, runs, b) :: next <= Height(b)
  }

  /** The next scan begins past the head read or, if that is further, as far as that allows. */
  lemma PolledCursor(start: nat, s: State, view: View, runs: Runs)
    requires Consistent(view)
    ensures var next := Polled(start, s, view, runs).next;
      && next >= Height(view.tip) + 1
      && (next > Height(view.tip) + 1 ==> MayScanFrom(s, view, runs, next))
      && (forall n: nat | MayScanFrom(s, view, runs, n) :: n <= next)
  {
    var stale := Stale(s, view, runs);
    forall b
      ensures b in stale <==> FoundStale(s, view, runs, b)
    {
      StaleIff(s, view, runs, b);
    }
    if stale != {} {
      var b :| b in stale && Height(b) == LowestHeight(stale);
    }
  }

  // ---------------------------------------------------------------------------------------------
  // Every run of polls
  // ---------------------------------------------------------------------------------------------

  /** Polls, completed or cut short after any receipt or after the events, restarts, and what the relay
      writes in between. */
  datatype Happening =
    | Completes(view: View, runs: Runs)
    | CutAmongReceipts(view: View, runs: Runs, n: nat)
    | CutBeforeDepth(view: View, runs: Runs)
    | Restarts
    | Writes(outbox: seq<TxRow>)

  predicate IsMined(status: TxStatus) { status in {Included, Confirmed, Finalized, Reverted} }

  /** The relay adds rows and gives rows statuses, whatever they were, but none that means mined; hashes
      and inclusions it leaves alone. */
  ghost predicate RelayMay(o: seq<TxRow>, o': seq<TxRow>) {
    && |o| <= |o'|
    && (forall i | 0 <= i < |o| ::
          o'[i].tx == o[i].tx && o'[i].block == o[i].block
          && (o'[i].status == o[i].status || !IsMined(o'[i].status)))
    && (forall i | |o| <= i < |o'| :: o'[i].block.None? && !IsMined(o'[i].status))
  }

  /** A transaction mined in a block has one outcome there, which every receipt read reports. */
  ghost predicate Reports(view: View, succeeds: (Block, TxHash) -> bool) {
    forall tx | tx in view.receipts :: view.receipts[tx].succeeded == succeeds(view.receipts[tx].block, tx)
  }

  ghost predicate Happens(start: nat, s: State, h: Happening, s': State, succeeds: (Block, TxHash) -> bool) {
    match h
    case Completes(view, runs) => Consistent(view) && Reports(view, succeeds) && s' == Polled(start, s, view, runs)
    case CutAmongReceipts(view, runs, n) =>
      Reports(view, succeeds) && n <= WaitingCount(s, view, runs) && s' == AfterReceipts(s, view, runs, n)
    case CutBeforeDepth(view, runs) =>
      Consistent(view) && Reports(view, succeeds) && s' == AfterRecording(start, s, view, runs)
    case Restarts => s' == s.(next := start)
    case Writes(outbox) => RelayMay(s.outbox, outbox) && s' == s.(outbox := outbox)
  }

  ghost predicate RunOfPolls(start: nat, ss: seq<State>, hs: seq<Happening>, succeeds: (Block, TxHash) -> bool) {
    && |ss| == |hs| + 1 && ss[0].outbox == []
    && forall i | 0 <= i < |hs| :: Happens(start, ss[i], hs[i], ss[i + 1], succeeds)
  }

  /** Of a transaction that failed in the block recorded, no row says it is included, confirmed or
      finalized; of one that succeeded, none says it reverted; and none says either without a block. */
  ghost predicate Truthful(o: seq<TxRow>, succeeds: (Block, TxHash) -> bool) {
    forall i | 0 <= i < |o| :: RowIsTruthful(o[i], succeeds)
  }

  ghost predicate RowIsTruthful(row: TxRow, succeeds: (Block, TxHash) -> bool) {
    && (row.status in {Included, Confirmed, Finalized} ==> row.block.Some? && succeeds(row.block.value, row.tx))
    && (row.status.Reverted? ==> row.block.Some? && !succeeds(row.block.value, row.tx))
  }

  lemma CheckKeepsTruth(s: State, view: View, runs: Runs, succeeds: (Block, TxHash) -> bool)
    requires Truthful(s.outbox, succeeds)
    ensures Truthful(Checked(s, view, runs).outbox, succeeds)
  {
    CheckedRows(s, view, runs);
    var o := Checked(s, view, runs).outbox;
    forall i | 0 <= i < |o|
      ensures RowIsTruthful(o[i], succeeds)
    {
      assert CheckedRow(s, view, runs, i, o[i]) && RowIsTruthful(s.outbox[i], succeeds);
    }
  }

  lemma PassKeepsTruth(o: seq<TxRow>, n: nat, view: View, unwatched: set<RunId>, p: Pass,
                       succeeds: (Block, TxHash) -> bool)
    requires Truthful(o, succeeds) && Reports(view, succeeds) && PassIs(o, n, view, unwatched, p)
    ensures Truthful(p.outbox, succeeds)
  {
    forall i | 0 <= i < |o|
      ensures RowIsTruthful(p.outbox[i], succeeds)
    {
      assert RowIs(o, i, n, view, unwatched, p.outbox[i]) && RowIsTruthful(o[i], succeeds);
    }
  }

  lemma ReceiptsKeepTruth(s: State, view: View, runs: Runs, n: nat, succeeds: (Block, TxHash) -> bool)
    requires Truthful(s.outbox, succeeds) && Reports(view, succeeds) && n <= WaitingCount(s, view, runs)
    ensures Truthful(AfterReceipts(s, view, runs, n).outbox, succeeds)
  {
    var o := Checked(s, view, runs).outbox;
    CheckKeepsTruth(s, view, runs, succeeds);
    AwaitingListsWaited(o, runs.unwatched);
    EveryPass(o, runs.unwatched, Awaiting(o, runs.unwatched), n, view);
    PassKeepsTruth(o, Reached(Awaiting(o, runs.unwatched), n), view, runs.unwatched,
                   Passed(o, Awaiting(o, runs.unwatched), n, view), succeeds);
  }

  lemma PollKeepsTruth(start: nat, s: State, view: View, runs: Runs, succeeds: (Block, TxHash) -> bool)
    requires Truthful(s.outbox, succeeds) && Reports(view, succeeds) && Consistent(view)
    ensures Truthful(Polled(start, s, view, runs).outbox, succeeds)
  {
    var o, t := Checked(s, view, runs).outbox, Polled(start, s, view, runs).outbox;
    CheckKeepsTruth(s, view, runs, succeeds);
    PolledRows(start, s, view, runs);
    forall i | 0 <= i < |t|
      ensures RowIsTruthful(t[i], succeeds)
    {
      assert PolledRow(o, i, view, runs, t[i]) && RowIsTruthful(o[i], succeeds);
    }
  }

  lemma WritesKeepTruth(o: seq<TxRow>, o': seq<TxRow>, succeeds: (Block, TxHash) -> bool)
    requires Truthful(o, succeeds) && RelayMay(o, o')
    ensures Truthful(o', succeeds)
  {
    forall i | 0 <= i < |o'|
      ensures RowIsTruthful(o'[i], succeeds)
    {
      if i < |o| {
        assert RowIsTruthful(o[i], succeeds);
      }
    }
  }

  lemma HappeningKeepsTruth(start: nat, s: State, h: Happening, s': State, succeeds: (Block, TxHash) -> bool)
    requires Truthful(s.outbox, succeeds) && Happens(start, s, h, s', succeeds)
    ensures Truthful(s'.outbox, succeeds)
  {
    match h
    case Completes(view, runs) => PollKeepsTruth(start, s, view, runs, succeeds);
    case CutAmongReceipts(view, runs, cut) => ReceiptsKeepTruth(s, view, runs, cut, succeeds);
    case CutBeforeDepth(view, runs) => ReceiptsKeepTruth(s, view, runs, WaitingCount(s, view, runs), succeeds);
    case Restarts =>
    case Writes(outbox) => WritesKeepTruth(s.outbox, outbox, succeeds);
  }

  /** Over every run of polls, cut short or not, restarts and relay writes of any kind. */
  lemma {:induction false} FailedIsNeverIncluded(start: nat, ss: seq<State>, hs: seq<Happening>,
                                                 succeeds: (Block, TxHash) -> bool, n: nat)
    requires RunOfPolls(start, ss, hs, succeeds) && n <= |hs|
    ensures Truthful(ss[n].outbox, succeeds)
  {
    if n > 0 {
      FailedIsNeverIncluded(start, ss, hs, succeeds, n - 1);
      HappeningKeepsTruth(start, ss[n - 1], hs[n - 1], ss[n], succeeds);
    }
  }
}
