/** What one poll of the indexer does to the tables, unit of work by unit of work, as functions on
    values. `Indexer` is proved to compute exactly these; the theorems are about these. */
module IndexerSpec {
  import opened Common
  import opened Chain

  type RunId = nat

  /** A `chain_events` row; its key is the log it records. */
  datatype EventRow = EventRow(run: Option<RunId>, canonical: bool)

  /** The block a run's balance snapshot was read at. */
  datatype Snapshot = Snapshot(run: RunId, block: Block, canonical: bool)

  datatype TxStatus = Pending | Submitted | Included | Confirmed | Finalized | Reverted | Replaced | Dropped

  /** A `tx_outbox` row of this deployment. `block` is its recorded inclusion. */
  datatype TxRow = TxRow(run: RunId, action: Option<nat>, sender: nat, nonce: nat, tx: TxHash,
                         status: TxStatus, block: Option<Block>)

  /** The tables, and the log scan's cursor. Outbox rows are in order of creation. */
  datatype State = State(events: map<Key, EventRow>, snapshots: seq<Snapshot>,
                         outbox: seq<TxRow>, next: nat)

  datatype Receipt = Receipt(block: Block, succeeded: bool)

  /** Everything one poll reads from the chain, as one consistent view. */
  datatype View = View(tip: Block, finalizedTag: nat, receipts: map<TxHash, Receipt>)

  /** Everything one poll reads of the runs: which run a session belongs to, the runs no longer
      watched (terminal, or of another deployment), the runs with an open session, and the
      threshold of each run whose configuration states one validly. */
  datatype Runs = Runs(bySession: map<SessionId, RunId>, unwatched: set<RunId>, open: set<RunId>,
                       thresholds: map<RunId, nat>)

  function FinalizedHead(view: View): nat {
    Min(view.finalizedTag, Height(view.tip))
  }

  /** A receipt is of a block on the chain read, or of one mined after the head was read. */
  predicate Consistent(view: View) {
    forall tx | tx in view.receipts ::
      OnChain(view.receipts[tx].block, view.tip) || Height(view.receipts[tx].block) > Height(view.tip)
  }

  predicate IsWatched(run: Option<RunId>, unwatched: set<RunId>) {
    run.None? || run.value !in unwatched
  }

  // ---------------------------------------------------------------------------------------------
  // 1. The reorg check
  // ---------------------------------------------------------------------------------------------

  predicate EventIsChecked(events: map<Key, EventRow>, k: Key, f: nat, runs: Runs) {
    k in events && events[k].canonical && IsWatched(events[k].run, runs.unwatched) && Height(k.block) > f
  }

  predicate RowIsChecked(row: TxRow, f: nat, runs: Runs) {
    row.block.Some? && row.run !in runs.unwatched && Height(row.block.value) > f
  }

  predicate SnapshotIsChecked(p: Snapshot, f: nat, runs: Runs) {
    p.canonical && p.run in runs.open && Height(p.block) > f
  }

  function EventBlocks(events: map<Key, EventRow>, keys: set<Key>, f: nat, runs: Runs): set<Block> {
    set k | k in keys && EventIsChecked(events, k, f, runs) :: k.block
  }

  function RowBlocks(outbox: seq<TxRow>, n: nat, f: nat, runs: Runs): set<Block>
    requires n <= |outbox|
  {
    set i | 0 <= i < n && RowIsChecked(outbox[i], f, runs) :: outbox[i].block.value
  }

  function SnapshotBlocks(snapshots: seq<Snapshot>, n: nat, f: nat, runs: Runs): set<Block>
    requires n <= |snapshots|
  {
    set i | 0 <= i < n && SnapshotIsChecked(snapshots[i], f, runs) :: snapshots[i].block
  }

  /** Every block hash the check re-verifies. */
  function Stored(s: State, f: nat, runs: Runs): set<Block> {
    EventBlocks(s.events, s.events.Keys, f, runs) + RowBlocks(s.outbox, |s.outbox|, f, runs)
    + SnapshotBlocks(s.snapshots, |s.snapshots|, f, runs)
  }

  /** Those of them that are not ancestors of the tip read. */
  function Stale(s: State, view: View, runs: Runs): set<Block> {
    set b | b in Stored(s, FinalizedHead(view), runs) && !OnChain(b, view.tip)
  }

  ghost function LowestHeight(blocks: set<Block>): (n: nat)
    requires blocks != {}
    ensures exists b :: b in blocks && Height(b) == n
    ensures forall b | b in blocks :: n <= Height(b)
  {
    var b :| b in blocks;
    if blocks == {b} then Height(b) else Min(Height(b), LowestHeight(blocks - {b}))
  }

  function InvalidateEvents(events: map<Key, EventRow>, stale: set<Block>): map<Key, EventRow> {
    map k | k in events :: if k.block in stale then events[k].(canonical := false) else events[k]
  }

  function InvalidateSnapshot(p: Snapshot, stale: set<Block>, open: set<RunId>): Snapshot {
    if p.block in stale && p.run in open then p.(canonical := false) else p
  }

  function InvalidateSnapshots(snapshots: seq<Snapshot>, stale: set<Block>, open: set<RunId>): (r: seq<Snapshot>)
    ensures |r| == |snapshots|
  {
    seq(|snapshots|, i requires 0 <= i < |snapshots| => InvalidateSnapshot(snapshots[i], stale, open))
  }

  /** A row whose inclusion is in a stale block is waited for again. */
  function ResetRow(row: TxRow, stale: set<Block>): TxRow {
    if row.block.Some? && row.block.value in stale then row.(status := Submitted, block := None) else row
  }

  function ResetInclusions(outbox: seq<TxRow>, stale: set<Block>): (r: seq<TxRow>)
    ensures |r| == |outbox|
  {
    seq(|outbox|, i requires 0 <= i < |outbox| => ResetRow(outbox[i], stale))
  }

  ghost function Rewound(s: State, stale: set<Block>, fork: nat, runs: Runs): State {
    State(InvalidateEvents(s.events, stale), InvalidateSnapshots(s.snapshots, stale, runs.open),
          ResetInclusions(s.outbox, stale), Min(s.next, fork))
  }

  ghost function Checked(s: State, view: View, runs: Runs): State {
    var stale := Stale(s, view, runs);
    if stale == {} then s else Rewound(s, stale, LowestHeight(stale), runs)
  }

  // ---------------------------------------------------------------------------------------------
  // 2. Receipts
  // ---------------------------------------------------------------------------------------------

  predicate SameGroup(a: TxRow, b: TxRow) {
    a.sender == b.sender && a.nonce == b.nonce
  }

  predicate Unmined(status: TxStatus) {
    status.Pending? || status.Submitted?
  }

  predicate Retired(status: TxStatus) {
    status.Replaced? || status.Dropped?
  }

  predicate Mined(status: TxStatus) {
    status.Included? || status.Confirmed? || status.Finalized? || status.Reverted?
  }

  /** Not in a status that can never settle the action: the unique index's own condition. */
  predicate Live(row: TxRow) {
    !row.status.Replaced? && !row.status.Dropped? && !row.status.Reverted?
  }

  predicate GroupIncluded(outbox: seq<TxRow>, row: TxRow) {
    exists j :: 0 <= j < |outbox| && SameGroup(outbox[j], row) && outbox[j].block.Some?
  }

  predicate Awaits(outbox: seq<TxRow>, i: nat, unwatched: set<RunId>)
    requires i < |outbox|
  {
    (Unmined(outbox[i].status) || Retired(outbox[i].status)) && outbox[i].block.None?
    && outbox[i].run !in unwatched && !GroupIncluded(outbox, outbox[i])
  }

  /** `awaiting_receipt` among the first `n` rows: their indices, ascending. */
  function AwaitingIn(outbox: seq<TxRow>, n: nat, unwatched: set<RunId>): (r: seq<nat>)
    requires n <= |outbox|
    ensures forall i: nat :: i in r <==> i < n && Awaits(outbox, i, unwatched)
    ensures forall a, b | 0 <= a < b < |r| :: r[a] < r[b]
  {
    if n == 0 then []
    else
      var r0 := AwaitingIn(outbox, n - 1, unwatched);
      assert forall a | 0 <= a < |r0| :: r0[a] in r0;
      r0 + (if Awaits(outbox, n - 1, unwatched) then [n - 1] else [])
  }

  function Awaiting(outbox: seq<TxRow>, unwatched: set<RunId>): seq<nat> {
    AwaitingIn(outbox, |outbox|, unwatched)
  }

  /** Row `j` lost to row `i` when that was mined: unmined, and spending the same nonce or settling
      the same action. */
  predicate Rival(outbox: seq<TxRow>, i: nat, j: nat)
    requires i < |outbox| && j < |outbox|
  {
    j != i && Unmined(outbox[j].status) &&
    (SameGroup(outbox[j], outbox[i]) || (outbox[i].action.Some? && outbox[j].action == outbox[i].action))
  }

  function WithInclusion(outbox: seq<TxRow>, i: nat, receipt: Receipt): (r: seq<TxRow>)
    requires i < |outbox|
    ensures |r| == |outbox|
  {
    seq(|outbox|, j requires 0 <= j < |outbox| =>
      if j == i then
        outbox[j].(status := if receipt.succeeded then Included else Reverted, block := Some(receipt.block))
      else if Rival(outbox, i, j) then outbox[j].(status := Dropped)
      else outbox[j])
  }

  /** Where a pass over the waiting rows stands: the outbox, the groups settled in this pass and
      the logs of the receipts seen. */
  datatype Pass = Pass(outbox: seq<TxRow>, settled: set<(nat, nat)>, logs: set<Key>)

  function ReceiptStep(p: Pass, i: nat, view: View): (q: Pass)
    requires i < |p.outbox|
    ensures |q.outbox| == |p.outbox|
  {
    var row := p.outbox[i];
    if (row.sender, row.nonce) in p.settled || row.tx !in view.receipts
       || Height(view.receipts[row.tx].block) > Height(view.tip) then p
    else
      var receipt := view.receipts[row.tx];
      Pass(WithInclusion(p.outbox, i, receipt), p.settled + {(row.sender, row.nonce)},
           p.logs + EventsOfTx(receipt.block, row.tx))
  }

  /** The pass after its first `n` waiting rows. */
  function Passed(outbox: seq<TxRow>, waiting: seq<nat>, n: nat, view: View): (p: Pass)
    requires n <= |waiting| && forall i | i in waiting :: i < |outbox|
    ensures |p.outbox| == |outbox|
  {
    if n == 0 then Pass(outbox, {}, {})
    else
      assert waiting[n - 1] in waiting;
      ReceiptStep(Passed(outbox, waiting, n - 1, view), waiting[n - 1], view)
  }

  // ---------------------------------------------------------------------------------------------
  // 3 and 4. The log scan and recording
  // ---------------------------------------------------------------------------------------------

  function ScanStart(start: nat, next: nat, view: View): nat {
    Max(start, Min(next, FinalizedHead(view) + 1))
  }

  function RunOf(k: Key, runs: Runs): Option<RunId>
    requires IsEvent(k)
  {
    if SessionOf(k) in runs.bySession then Some(runs.bySession[SessionOf(k)]) else None
  }

  /** The row under key `k` once its log was read: canonical, with the run it had if there was one. */
  function AddedRow(events: map<Key, EventRow>, k: Key, runs: Runs): EventRow
    requires IsEvent(k)
  {
    if k in events then events[k].(canonical := true) else EventRow(RunOf(k, runs), true)
  }

  predicate AllEvents(logs: set<Key>) {
    forall k | k in logs :: IsEvent(k)
  }

  function RecordEvents(events: map<Key, EventRow>, logs: set<Key>, runs: Runs): map<Key, EventRow>
    requires AllEvents(logs)
  {
    map k | k in events.Keys + logs :: if k in logs then AddedRow(events, k, runs) else events[k]
  }

  function Recorded(s: State, logs: set<Key>, view: View, runs: Runs): State
    requires AllEvents(logs)
  {
    s.(events := RecordEvents(s.events, logs, runs), next := Max(s.next, Height(view.tip) + 1))
  }

  // ---------------------------------------------------------------------------------------------
  // 5. Depth
  // ---------------------------------------------------------------------------------------------

  function SettledRow(row: TxRow, view: View, runs: Runs): TxRow {
    if !(row.status.Included? || row.status.Confirmed?) || row.block.None? then row
    else if Height(row.block.value) <= FinalizedHead(view) then row.(status := Finalized)
    else if row.status == Included && row.run in runs.thresholds
            && Height(view.tip) - Height(row.block.value) + 1 >= runs.thresholds[row.run]
    then row.(status := Confirmed)
    else row
  }

  function Deepened(outbox: seq<TxRow>, view: View, runs: Runs): (r: seq<TxRow>)
    ensures |r| == |outbox|
  {
    seq(|outbox|, i requires 0 <= i < |outbox| => SettledRow(outbox[i], view, runs))
  }

  // ---------------------------------------------------------------------------------------------
  // One whole poll
  // ---------------------------------------------------------------------------------------------

  ghost function PassOf(s: State, view: View, runs: Runs, n: nat): (p: Pass)
    requires n <= |Awaiting(Checked(s, view, runs).outbox, runs.unwatched)|
  {
    var outbox := Checked(s, view, runs).outbox;
    Passed(outbox, Awaiting(outbox, runs.unwatched), n, view)
  }

  ghost function WaitingCount(s: State, view: View, runs: Runs): nat {
    |Awaiting(Checked(s, view, runs).outbox, runs.unwatched)|
  }

  /** Every log the poll records: its receipts' and the scan's. */
  ghost function PollLogs(start: nat, s: State, view: View, runs: Runs): set<Key> {
    PassOf(s, view, runs, WaitingCount(s, view, runs)).logs
    + EventsIn(view.tip, ScanStart(start, Checked(s, view, runs).next, view), Height(view.tip))
  }

  lemma {:induction false} PassLogsAreEvents(outbox: seq<TxRow>, waiting: seq<nat>, n: nat, view: View)
    requires n <= |waiting| && (forall i | i in waiting :: i < |outbox|) && Consistent(view)
    ensures forall k | k in Passed(outbox, waiting, n, view).logs :: IsEvent(k) && OnChain(k.block, view.tip)
  {
    if n > 0 {
      PassLogsAreEvents(outbox, waiting, n - 1, view);
    }
  }

  lemma PollLogsAreOnChain(start: nat, s: State, view: View, runs: Runs)
    requires Consistent(view)
    ensures forall k | k in PollLogs(start, s, view, runs) :: IsEvent(k) && OnChain(k.block, view.tip)
  {
    var outbox := Checked(s, view, runs).outbox;
    var waiting := Awaiting(outbox, runs.unwatched);
    PassLogsAreEvents(outbox, waiting, |waiting|, view);
  }

  /** After the first `n` receipts of a poll. */
  ghost function AfterReceipts(s: State, view: View, runs: Runs, n: nat): State
    requires n <= WaitingCount(s, view, runs)
  {
    Checked(s, view, runs).(outbox := PassOf(s, view, runs, n).outbox)
  }

  ghost function AfterRecording(start: nat, s: State, view: View, runs: Runs): State
    requires Consistent(view)
  {
    PollLogsAreOnChain(start, s, view, runs);
    Recorded(AfterReceipts(s, view, runs, WaitingCount(s, view, runs)), PollLogs(start, s, view, runs), view, runs)
  }

  ghost function Polled(start: nat, s: State, view: View, runs: Runs): State
    requires Consistent(view)
  {
    var t := AfterRecording(start, s, view, runs);
    t.(outbox := Deepened(t.outbox, view, runs))
  }

  /** What a poll aborted by a failed read, before it recorded its events, can leave behind. */
  ghost predicate AbortedEarly(s: State, view: View, runs: Runs, t: State) {
    t == s || exists n :: 0 <= n <= WaitingCount(s, view, runs) && t == AfterReceipts(s, view, runs, n)
  }
}
