/** The indexer as it runs: tables updated in place, one unit of work at a time, any chain read of
    which can fail and end the poll there. */
module Indexer {
  import opened Common
  import opened Chain
  import opened IndexerSpec

  /** Stored hashes by height, as the reorg check collects them. */
  ghost predicate ByHeight(stored: map<nat, set<Block>>, blocks: set<Block>) {
    && (forall n | n in stored :: stored[n] != {})
    && (forall n, b | n in stored && b in stored[n] :: b in blocks && Height(b) == n)
    && (forall b | b in blocks :: Height(b) in stored && b in stored[Height(b)])
  }

  function Watch(stored: map<nat, set<Block>>, b: Block, f: nat): map<nat, set<Block>> {
    if Height(b) <= f then stored
    else stored[Height(b) := (if Height(b) in stored then stored[Height(b)] else {}) + {b}]
  }

  lemma WatchKeeps(stored: map<nat, set<Block>>, blocks: set<Block>, b: Block, f: nat)
    requires ByHeight(stored, blocks)
    ensures ByHeight(Watch(stored, b, f), if Height(b) > f then blocks + {b} else blocks)
  {
  }

  ghost function LowestOf(ns: set<nat>): (n: nat)
    requires ns != {}
    ensures n in ns && forall m | m in ns :: n <= m
  {
    var n :| n in ns;
    assert forall m | m in ns :: m == n || m in ns - {n};
    if ns == {n} then n else var k := LowestOf(ns - {n}); if n <= k then n else k
  }

  /** The hashes of one height that are gone: all of them above the head. */
  function GoneAt(stored: set<Block>, n: nat, tip: Block): set<Block> {
    if n <= Height(tip) then stored - {At(tip, n)} else stored
  }

  lemma GoneAtIsOffChain(stored: map<nat, set<Block>>, blocks: set<Block>, n: nat, tip: Block)
    requires ByHeight(stored, blocks) && n in stored
    ensures forall b :: b in GoneAt(stored[n], n, tip) <==> b in blocks && Height(b) == n && !OnChain(b, tip)
  {
  }

  /** Everything below the heights still to look up is judged; `lowest` is of the fork height. */
  ghost predicate Judged(stored: map<nat, set<Block>>, blocks: set<Block>, tip: Block, rest: set<nat>,
                         stale: set<Block>, fork: Option<nat>, lowest: Block)
  {
    && rest <= stored.Keys
    && (forall n, m | n in stored && n !in rest && m in rest :: n < m)
    && (forall b :: b in stale <==> b in blocks && Height(b) !in rest && !OnChain(b, tip))
    && (fork.None? ==> stale == {})
    && (fork.Some? ==>
          lowest in stale && Height(lowest) == fork.value && forall b | b in stale :: fork.value <= Height(b))
  }

  /** Judging the lowest height left; `lowest'` is of the fork height found so far. */
  lemma JudgeNext(stored: map<nat, set<Block>>, blocks: set<Block>, tip: Block, rest: set<nat>,
                  stale: set<Block>, fork: Option<nat>, lowest: Block, n: nat)
    returns (lowest': Block)
    requires ByHeight(stored, blocks) && Judged(stored, blocks, tip, rest, stale, fork, lowest)
    requires n in rest && forall m | m in rest :: n <= m
    ensures var gone := GoneAt(stored[n], n, tip);
      Judged(stored, blocks, tip, rest - {n}, stale + gone, ForkAfter(fork, gone, n), lowest')
  {
    GoneAtIsOffChain(stored, blocks, n, tip);
    var gone := GoneAt(stored[n], n, tip);
    lowest' := lowest;
    if fork.Some? {
      assert fork.value in stored && fork.value !in rest;
    } else if gone != {} {
      lowest' :| lowest' in gone;
    }
  }

  function ForkAfter(fork: Option<nat>, gone: set<Block>, n: nat): Option<nat> {
    if fork.None? && gone != {} then Some(n) else fork
  }

  method LowestLeft(rest: set<nat>) returns (n: nat)
    requires rest != {}
    ensures n in rest && forall m | m in rest :: n <= m
  {
    ghost var least := LowestOf(rest);
    assert least in rest && forall m | m in rest :: least <= m;
    n :| n in rest && forall m | m in rest :: n <= m;
  }

  /** The blocks among `blocks` off the chain, and the height of the lowest: one pass over the heights
      upwards, so the first stale one met is it. */
  method StaleOf(stored: map<nat, set<Block>>, view: View, ghost blocks: set<Block>)
    returns (stale: set<Block>, fork: Option<nat>)
    requires ByHeight(stored, blocks)
    ensures stale == set b | b in blocks && !OnChain(b, view.tip)
    ensures fork.None? <==> stale == {}
    ensures fork.Some? ==> (exists b :: b in stale && Height(b) == fork.value) &&
                           forall b | b in stale :: fork.value <= Height(b)
  {
    stale, fork := {}, None;
    ghost var lowest := Genesis;
    var rest := stored.Keys;
    while rest != {}
      invariant Judged(stored, blocks, view.tip, rest, stale, fork, lowest)
      decreases |rest|
    {
      var n := LowestLeft(rest);
      var gone := GoneAt(stored[n], n, view.tip);
      lowest := JudgeNext(stored, blocks, view.tip, rest, stale, fork, lowest, n);
      fork := ForkAfter(fork, gone, n);
      stale := stale + gone;
      rest := rest - {n};
    }
  }

  lemma EventOneMore(events: map<Key, EventRow>, done: set<Key>, k: Key, f: nat, runs: Runs)
    ensures EventBlocks(events, done + {k}, f, runs)
            == EventBlocks(events, done, f, runs) + if EventIsChecked(events, k, f, runs) then {k.block} else {}
  {
  }

  lemma RowOneMore(outbox: seq<TxRow>, blocks: set<Block>, i: nat, f: nat, runs: Runs)
    requires i < |outbox|
    ensures blocks + RowBlocks(outbox, i + 1, f, runs)
            == blocks + RowBlocks(outbox, i, f, runs)
               + if RowIsChecked(outbox[i], f, runs) then {outbox[i].block.value} else {}
  {
  }

  lemma SnapshotOneMore(snapshots: seq<Snapshot>, blocks: set<Block>, i: nat, f: nat, runs: Runs)
    requires i < |snapshots|
    ensures blocks + SnapshotBlocks(snapshots, i + 1, f, runs)
            == blocks + SnapshotBlocks(snapshots, i, f, runs)
               + if SnapshotIsChecked(snapshots[i], f, runs) then {snapshots[i].block} else {}
  {
  }

  lemma RecordOneMore(events: map<Key, EventRow>, done: set<Key>, k: Key, runs: Runs)
    requires AllEvents(done) && IsEvent(k) && k !in done
    ensures AllEvents(done + {k})
    ensures RecordEvents(events, done + {k}, runs) == RecordEvents(events, done, runs)[k := AddedRow(events, k, runs)]
    ensures k in RecordEvents(events, done, runs) <==> k in events
    ensures k in events ==> RecordEvents(events, done, runs)[k] == events[k]
  {
  }

  class Indexer {
    const start: nat
    const chunk: nat
    var events: map<Key, EventRow>
    var snapshots: seq<Snapshot>
    var outbox: seq<TxRow>
    var next: nat

    /** A process begins at the deployment's start block, over the tables as they are. */
    constructor (start: nat, chunk: nat, tables: State)
      requires chunk > 0
      ensures this.start == start && this.chunk == chunk
      ensures Contents() == tables.(next := start)
    {
      this.start, this.chunk, next := start, chunk, start;
      events, snapshots, outbox := tables.events, tables.snapshots, tables.outbox;
    }

    ghost function Contents(): State
      reads this
    {
      State(events, snapshots, outbox, next)
    }

    method CollectEvents(f: nat, runs: Runs) returns (stored: map<nat, set<Block>>)
      ensures ByHeight(stored, EventBlocks(events, events.Keys, f, runs))
    {
      stored := map[];
      ghost var done: set<Key> := {};
      var rest := events.Keys;
      while rest != {}
        invariant rest <= events.Keys && done == events.Keys - rest
        invariant ByHeight(stored, EventBlocks(events, done, f, runs))
        decreases |rest|
      {
        var k :| k in rest;
        EventOneMore(events, done, k, f, runs);
        if events[k].canonical && IsWatched(events[k].run, runs.unwatched) {
          WatchKeeps(stored, EventBlocks(events, done, f, runs), k.block, f);
          stored := Watch(stored, k.block, f);
        }
        rest, done := rest - {k}, done + {k};
      }
      assert done == events.Keys;
    }

    method CollectRows(from: map<nat, set<Block>>, f: nat, runs: Runs, ghost blocks: set<Block>)
      returns (stored: map<nat, set<Block>>)
      requires ByHeight(from, blocks)
      ensures ByHeight(stored, blocks + RowBlocks(outbox, |outbox|, f, runs))
    {
      stored := from;
      assert blocks + RowBlocks(outbox, 0, f, runs) == blocks;
      for i := 0 to |outbox|
        invariant ByHeight(stored, blocks + RowBlocks(outbox, i, f, runs))
      {
        RowOneMore(outbox, blocks, i, f, runs);
        if outbox[i].block.Some? && outbox[i].run !in runs.unwatched {
          WatchKeeps(stored, blocks + RowBlocks(outbox, i, f, runs), outbox[i].block.value, f);
          stored := Watch(stored, outbox[i].block.value, f);
        }
      }
    }

    method CollectSnapshots(from: map<nat, set<Block>>, f: nat, runs: Runs, ghost blocks: set<Block>)
      returns (stored: map<nat, set<Block>>)
      requires ByHeight(from, blocks)
      ensures ByHeight(stored, blocks + SnapshotBlocks(snapshots, |snapshots|, f, runs))
    {
      stored := from;
      assert blocks + SnapshotBlocks(snapshots, 0, f, runs) == blocks;
      for i := 0 to |snapshots|
        invariant ByHeight(stored, blocks + SnapshotBlocks(snapshots, i, f, runs))
      {
        SnapshotOneMore(snapshots, blocks, i, f, runs);
        if snapshots[i].canonical && snapshots[i].run in runs.open {
          WatchKeeps(stored, blocks + SnapshotBlocks(snapshots, i, f, runs), snapshots[i].block, f);
          stored := Watch(stored, snapshots[i].block, f);
        }
      }
    }

    method CollectStored(f: nat, runs: Runs) returns (stored: map<nat, set<Block>>)
      ensures ByHeight(stored, Stored(Contents(), f, runs))
    {
      ghost var logs, rows := EventBlocks(events, events.Keys, f, runs), RowBlocks(outbox, |outbox|, f, runs);
      stored := CollectEvents(f, runs);
      stored := CollectRows(stored, f, runs, logs);
      stored := CollectSnapshots(stored, f, runs, logs + rows);
    }

    /** The check and, where a fork is found, the rewind: one unit of work and the cursor. */
    method CheckReorg(view: View, runs: Runs)
      modifies this
      ensures Contents() == Checked(old(Contents()), view, runs)
    {
      var stored := CollectStored(FinalizedHead(view), runs);
      var stale, fork := StaleOf(stored, view, Stored(Contents(), FinalizedHead(view), runs));
      assert stale == Stale(Contents(), view, runs);
      if fork.Some? {
        assert LowestHeight(stale) == fork.value;
        events := InvalidateEvents(events, stale);
        ResetRows(stale);
        snapshots := InvalidateSnapshots(snapshots, stale, runs.open);
        next := Min(next, fork.value);
      }
    }

    method ResetRows(stale: set<Block>)
      modifies this`outbox
      ensures outbox == ResetInclusions(old(outbox), stale)
    {
      for i := 0 to |outbox|
        invariant |outbox| == |old(outbox)|
        invariant forall j | 0 <= j < i :: outbox[j] == ResetRow(old(outbox)[j], stale)
        invariant forall j | i <= j < |outbox| :: outbox[j] == old(outbox)[j]
      {
        if outbox[i].block.Some? && outbox[i].block.value in stale {
          outbox := outbox[i := outbox[i].(status := Submitted, block := None)];
        }
      }
    }

    /** Drop the rivals, then mark the row included or, for a failed receipt, reverted. */
    method RecordInclusion(i: nat, receipt: Receipt)
      requires i < |outbox|
      modifies this`outbox
      ensures outbox == WithInclusion(old(outbox), i, receipt)
      ensures outbox[i] == old(outbox)[i].(block := Some(receipt.block),
                                           status := if receipt.succeeded then Included else Reverted)
    {
      var read := outbox;
      for j := 0 to |read|
        invariant |outbox| == |read|
        invariant forall l | 0 <= l < j ::
          outbox[l] == (if Rival(read, i, l) then read[l].(status := Dropped) else read[l])
        invariant forall l | j <= l < |read| :: outbox[l] == read[l]
      {
        if Rival(read, i, j) {
          outbox := outbox[j := outbox[j].(status := Dropped)];
        }
      }
      outbox := outbox[i := outbox[i].(status := Included, block := Some(receipt.block))];
      if !receipt.succeeded {
        outbox := outbox[i := outbox[i].(status := Reverted)];
      }
    }

    /** Each waiting row's receipt is one read and one unit of work; a failed read ends the poll. */
    method PollReceipts(view: View, runs: Runs) returns (done: bool, logs: set<Key>)
      modifies this`outbox
      ensures exists n :: 0 <= n <= |Awaiting(old(outbox), runs.unwatched)| &&
                outbox == Passed(old(outbox), Awaiting(old(outbox), runs.unwatched), n, view).outbox
      ensures done ==>
        var waiting := Awaiting(old(outbox), runs.unwatched);
        var p := Passed(old(outbox), waiting, |waiting|, view);
        outbox == p.outbox && logs == p.logs
    {
      var waiting := Awaiting(outbox, runs.unwatched);
      var settled: set<(nat, nat)> := {};
      logs := {};
      for n := 0 to |waiting|
        invariant |outbox| == |old(outbox)|
        invariant Pass(outbox, settled, logs) == Passed(old(outbox), waiting, n, view)
      {
        var i := waiting[n];
        assert i in waiting;
        var row := outbox[i];
        if (row.sender, row.nonce) in settled {
          continue;
        }
        if * {
          return false, logs;
        }
        if row.tx !in view.receipts || Height(view.receipts[row.tx].block) > Height(view.tip) {
          continue;
        }
        var receipt := view.receipts[row.tx];
        settled := settled + {(row.sender, row.nonce)};
        RecordInclusion(i, receipt);
        logs := logs + EventsOfTx(receipt.block, row.tx);
      }
      done := true;
    }

    /** `chunk` heights at a time; a chunk that cannot be read ends the scan. */
    method ScanLogs(view: View) returns (done: bool, logs: set<Key>)
      requires chunk > 0
      ensures done ==> logs == EventsIn(view.tip, ScanStart(start, next, view), Height(view.tip))
    {
      var head := Height(view.tip);
      var from := Max(start, Min(next, FinalizedHead(view) + 1));
      logs := {};
      while from <= head
        invariant ScanStart(start, next, view) <= from
        invariant forall k :: k in logs <==> IsEvent(k) && OnChain(k.block, view.tip)
                                             && ScanStart(start, next, view) <= Height(k.block) < from
        decreases head - from
      {
        if * {
          return false, logs;
        }
        var to := Min(from + chunk - 1, head);
        logs := logs + EventsIn(view.tip, from, to);
        from := to + 1;
      }
      done := true;
    }

    /** Insert the log's row, or make it canonical again; a row already canonical is left alone. */
    method AddOne(k: Key, runs: Runs, ghost was: map<Key, EventRow>, ghost done: set<Key>)
      requires AllEvents(done + {k}) && k !in done && events == RecordEvents(was, done, runs)
      modifies this`events
      ensures events == RecordEvents(was, done + {k}, runs)
    {
      RecordOneMore(was, done, k, runs);
      if k !in events {
        events := events[k := EventRow(RunOf(k, runs), true)];
      } else if !events[k].canonical {
        events := events[k := events[k].(canonical := true)];
      } else {
        assert events[k := events[k]] == events;
      }
    }

    method AddAll(logs: set<Key>, runs: Runs)
      requires AllEvents(logs)
      modifies this`events
      ensures events == RecordEvents(old(events), logs, runs)
    {
      ghost var was := events;
      var rest := logs;
      assert was == RecordEvents(was, logs - rest, runs);
      while rest != {}
        invariant rest <= logs && events == RecordEvents(was, logs - rest, runs)
        decreases |rest|
      {
        var k :| k in rest;
        ghost var done := logs - rest;
        AddOne(k, runs, was, done);
        rest := rest - {k};
        assert logs - rest == done + {k};
      }
      assert logs - rest == logs;
    }

    /** Every decoded log in one unit of work, and the cursor past the head. */
    method RecordAll(logs: set<Key>, view: View, runs: Runs)
      requires AllEvents(logs)
      modifies this`events, this`next
      ensures Contents() == Recorded(old(Contents()), logs, view, runs)
    {
      AddAll(logs, runs);
      next := Max(next, Height(view.tip) + 1);
    }

    method UpdateDepth(view: View, runs: Runs)
      modifies this`outbox
      ensures outbox == Deepened(old(outbox), view, runs)
    {
      for i := 0 to |outbox|
        invariant |outbox| == |old(outbox)|
        invariant forall j | 0 <= j < i :: outbox[j] == SettledRow(old(outbox)[j], view, runs)
        invariant forall j | i <= j < |outbox| :: outbox[j] == old(outbox)[j]
      {
        outbox := outbox[i := SettledRow(outbox[i], view, runs)];
      }
    }

    /** One poll. It completes, or a failed read ends it between two units of work. */
    method Poll(view: View, runs: Runs) returns (done: bool)
      requires chunk > 0 && Consistent(view)
      modifies this
      ensures done ==> Contents() == Polled(start, old(Contents()), view, runs)
      ensures !done ==> AbortedEarly(old(Contents()), view, runs, Contents())
                        || Contents() == AfterRecording(start, old(Contents()), view, runs)
    {
      ghost var s := Contents();
      if * {
        return false;
      }
      CheckReorg(view, runs);
      ghost var outbox0 := outbox;
      assert outbox0 == Checked(s, view, runs).outbox;
      var received, receiptLogs := PollReceipts(view, runs);
      ghost var n :| 0 <= n <= WaitingCount(s, view, runs)
        && outbox == Passed(outbox0, Awaiting(outbox0, runs.unwatched), n, view).outbox;
      assert Contents() == AfterReceipts(s, view, runs, n);
      if !received {
        return false;
      }
      assert Contents() == AfterReceipts(s, view, runs, WaitingCount(s, view, runs));
      var scanned, scanLogs := ScanLogs(view);
      if !scanned {
        return false;
      }
      PollLogsAreOnChain(start, s, view, runs);
      assert receiptLogs + scanLogs == PollLogs(start, s, view, runs);
      RecordAll(receiptLogs + scanLogs, view, runs);
      if * {
        return false;
      }
      UpdateDepth(view, runs);
      done := true;
    }
  }
}
