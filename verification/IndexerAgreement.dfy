/** The rows agree with the chain, over every run of polls, aborts and restarts. */
module IndexerAgreement {
  import opened Common
  import opened Chain
  import opened IndexerSpec

  /** The canonical rows are the exchange events of the chain ending in `tip`: none missing, and,
      among unattributed rows and those of runs still watched, none stale. */
  ghost predicate Agrees(s: State, tip: Block, start: nat, unwatched: set<RunId>) {
    && NoneMissing(s, tip, start, Height(tip) + 1)
    && (forall k | k in s.events && s.events[k].canonical && IsWatched(s.events[k].run, unwatched) ::
          IsEvent(k) && OnChain(k.block, tip) && start <= Height(k.block))
  }

  ghost predicate NoneMissing(s: State, tip: Block, start: nat, end: nat) {
    forall k: Key | IsEvent(k) && OnChain(k.block, tip) && start <= Height(k.block) < end ::
      k in s.events && s.events[k].canonical
  }

  /** The exchange is not deployed below the deployment's start block. */
  ghost predicate NothingBefore(tip: Block, start: nat) {
    forall k: Key | IsEvent(k) && OnChain(k.block, tip) :: start <= Height(k.block)
  }

  ghost predicate ReadableView(view: View, start: nat) {
    Consistent(view) && NothingBefore(view.tip, start)
  }

  // ---------------------------------------------------------------------------------------------
  // One poll, from any state: exactly when it leaves agreement
  // ---------------------------------------------------------------------------------------------

  /** A row's key is evidence: only decoded logs are inserted, and a row's log never changes. */
  ghost predicate RowsAreEvents(s: State) {
    forall k | k in s.events :: IsEvent(k)
  }

  /** What the poll does not look at again already agrees: every canonical row at or below the
      finalized head is of a block still there, and below the scan's start nothing is missing that
      no receipt of this poll brings. */
  ghost predicate SettledPartAgrees(s: State, start: nat, view: View, runs: Runs)
    requires Consistent(view)
  {
    SettledPart(s, start, view, runs.unwatched, PollLogs(start, s, view, runs))
  }

  ghost predicate SettledPart(s: State, start: nat, view: View, unwatched: set<RunId>, logs: set<Key>) {
    && (forall k | k in s.events && s.events[k].canonical && IsWatched(s.events[k].run, unwatched)
                   && Height(k.block) <= FinalizedHead(view) ::
          OnChain(k.block, view.tip))
    && (forall k: Key | IsEvent(k) && OnChain(k.block, view.tip)
                        && start <= Height(k.block) < ScanStart(start, s.next, view) ::
          (k in s.events && s.events[k].canonical) || k in logs)
  }

  /** The reorg check removes exactly stale rows, all above the finalized head, and moves the
      cursor down to every height it removed a row at. */
  ghost predicate CheckFacts(s: State, c: State, view: View, unwatched: set<RunId>) {
    && c.events.Keys == s.events.Keys
    && (forall k | k in s.events :: c.events[k].run == s.events[k].run)
    && (forall k | k in s.events && c.events[k].canonical :: s.events[k].canonical)
    && (forall k | k in s.events && s.events[k].canonical && !c.events[k].canonical ::
          c.next <= Height(k.block) && FinalizedHead(view) < Height(k.block) && !OnChain(k.block, view.tip))
    && (forall k | k in s.events && c.events[k].canonical && IsWatched(c.events[k].run, unwatched)
                   && FinalizedHead(view) < Height(k.block) :: OnChain(k.block, view.tip))
    && c.next <= s.next
    && Min(c.next, FinalizedHead(view) + 1) == Min(s.next, FinalizedHead(view) + 1)
  }

  lemma StaleFacts(s: State, view: View, runs: Runs)
    ensures forall b | b in Stale(s, view, runs) :: FinalizedHead(view) < Height(b) && !OnChain(b, view.tip)
    ensures forall k | k in s.events && s.events[k].canonical && IsWatched(s.events[k].run, runs.unwatched)
                       && FinalizedHead(view) < Height(k.block) && !OnChain(k.block, view.tip) ::
              k.block in Stale(s, view, runs)
  {
  }

  lemma CheckEffect(s: State, view: View, runs: Runs)
    ensures CheckFacts(s, Checked(s, view, runs), view, runs.unwatched)
  {
    StaleFacts(s, view, runs);
    var stale := Stale(s, view, runs);
    if stale != {} {
      RewindFacts(s, view, runs, stale);
    }
  }

  lemma RewindFacts(s: State, view: View, runs: Runs, stale: set<Block>)
    requires stale != {}
    requires forall b | b in stale :: FinalizedHead(view) < Height(b) && !OnChain(b, view.tip)
    requires forall k | k in s.events && s.events[k].canonical && IsWatched(s.events[k].run, runs.unwatched)
                        && FinalizedHead(view) < Height(k.block) && !OnChain(k.block, view.tip) :: k.block in stale
    ensures CheckFacts(s, Rewound(s, stale, LowestHeight(stale), runs), view, runs.unwatched)
  {
  }

  /** Recording removes nothing and makes every scanned or received event canonical. */
  ghost predicate RecordFacts(start: nat, s: State, c: State, logs: set<Key>, view: View, t: State) {
    && t.events.Keys == s.events.Keys + logs
    && (forall k | k in s.events && k !in logs :: k in c.events && t.events[k] == c.events[k])
    && (forall k | k in logs :: t.events[k].canonical && IsEvent(k) && OnChain(k.block, view.tip))
    && (forall k | k in s.events :: t.events[k].run == s.events[k].run)
    && (forall k: Key | IsEvent(k) && OnChain(k.block, view.tip)
                        && ScanStart(start, s.next, view) <= Height(k.block) :: k in logs)
    && t.next == Max(c.next, Height(view.tip) + 1)
  }

  /** What a scan reads is all there is from its start on; the check has not moved that start. */
  lemma ScanIsComplete(start: nat, s: State, view: View, runs: Runs)
    requires CheckFacts(s, Checked(s, view, runs), view, runs.unwatched) && Consistent(view)
    ensures forall k: Key | IsEvent(k) && OnChain(k.block, view.tip)
                            && ScanStart(start, s.next, view) <= Height(k.block) ::
      k in PollLogs(start, s, view, runs)
  {
    assert ScanStart(start, Checked(s, view, runs).next, view) == ScanStart(start, s.next, view);
  }

  /** Recording those logs over the checked tables. */
  lemma RecordEffect(start: nat, s: State, c: State, logs: set<Key>, view: View, runs: Runs, t: State)
    requires CheckFacts(s, c, view, runs.unwatched)
    requires forall k | k in logs :: IsEvent(k) && OnChain(k.block, view.tip)
    requires forall k: Key | IsEvent(k) && OnChain(k.block, view.tip)
                             && ScanStart(start, s.next, view) <= Height(k.block) :: k in logs
    requires t.events == RecordEvents(c.events, logs, runs) && t.next == Max(c.next, Height(view.tip) + 1)
    ensures RecordFacts(start, s, c, logs, view, t)
  {
  }

  lemma PollEffect(start: nat, s: State, view: View, runs: Runs)
    requires ReadableView(view, start)
    ensures CheckFacts(s, Checked(s, view, runs), view, runs.unwatched)
    ensures RecordFacts(start, s, Checked(s, view, runs), PollLogs(start, s, view, runs), view,
                        Polled(start, s, view, runs))
  {
    CheckEffect(s, view, runs);
    PollLogsAreOnChain(start, s, view, runs);
    ScanIsComplete(start, s, view, runs);
    RecordEffect(start, s, Checked(s, view, runs), PollLogs(start, s, view, runs), view, runs,
                 Polled(start, s, view, runs));
  }

  lemma FactsAgreeIf(start: nat, s: State, c: State, logs: set<Key>, view: View, unwatched: set<RunId>, t: State)
    requires NothingBefore(view.tip, start) && RowsAreEvents(s)
    requires CheckFacts(s, c, view, unwatched) && RecordFacts(start, s, c, logs, view, t)
    requires SettledPart(s, start, view, unwatched, logs)
    ensures Agrees(t, view.tip, start, unwatched)
  {
    forall k: Key | IsEvent(k) && OnChain(k.block, view.tip) && start <= Height(k.block) < Height(view.tip) + 1
      ensures k in t.events && t.events[k].canonical
    {
      if k !in logs {
        assert Height(k.block) < ScanStart(start, s.next, view);
        assert k in s.events && s.events[k].canonical;
      }
    }
    forall k | k in t.events && t.events[k].canonical && IsWatched(t.events[k].run, unwatched)
      ensures IsEvent(k) && OnChain(k.block, view.tip) && start <= Height(k.block)
    {
      if k !in logs {
        assert k in s.events && s.events[k].canonical && s.events[k].run == t.events[k].run;
        assert c.events[k].canonical;
      }
    }
  }

  lemma FactsAgreeOnlyIf(start: nat, s: State, c: State, logs: set<Key>, view: View, unwatched: set<RunId>, t: State)
    requires CheckFacts(s, c, view, unwatched) && RecordFacts(start, s, c, logs, view, t)
    requires Agrees(t, view.tip, start, unwatched)
    ensures SettledPart(s, start, view, unwatched, logs)
  {
    forall k: Key | IsEvent(k) && OnChain(k.block, view.tip)
                    && start <= Height(k.block) < ScanStart(start, s.next, view)
      ensures (k in s.events && s.events[k].canonical) || k in logs
    {
      assert k in t.events && t.events[k].canonical;
    }
    forall k | k in s.events && s.events[k].canonical && IsWatched(s.events[k].run, unwatched)
               && Height(k.block) <= FinalizedHead(view)
      ensures OnChain(k.block, view.tip)
    {
      assert k in t.events && t.events[k].canonical && t.events[k].run == s.events[k].run;
    }
  }

  /** Exactly when a completed poll leaves the rows in agreement with the chain it read. */
  lemma PollAgreesIff(start: nat, s: State, view: View, runs: Runs)
    requires ReadableView(view, start) && RowsAreEvents(s)
    ensures Agrees(Polled(start, s, view, runs), view.tip, start, runs.unwatched)
       <==> SettledPartAgrees(s, start, view, runs)
  {
    PollEffect(start, s, view, runs);
    var c, logs, t := Checked(s, view, runs), PollLogs(start, s, view, runs), Polled(start, s, view, runs);
    if SettledPartAgrees(s, start, view, runs) {
      FactsAgreeIf(start, s, c, logs, view, runs.unwatched, t);
    }
    if Agrees(t, view.tip, start, runs.unwatched) {
      FactsAgreeOnlyIf(start, s, c, logs, view, runs.unwatched, t);
    }
  }

  // ---------------------------------------------------------------------------------------------
  // Every run
  // ---------------------------------------------------------------------------------------------

  datatype Stop = Completed | AfterRecord | Early(left: State)

  /** A step of the system around the tables. `Elsewhere` is everything that is not the indexer's:
      the relay and the controller write outbox rows and snapshots, never events or the cursor. */
  datatype Step =
    | Poll(view: View, runs: Runs, stop: Stop)
    | Restart
    | Elsewhere(outbox: seq<TxRow>, snapshots: seq<Snapshot>)

  /** The tables, and two facts about the past: the block last read at each height by a scan whose
      events were recorded, and the runs no longer watched. */
  datatype World = World(s: State, read: map<nat, Block>, unwatched: set<RunId>)

  predicate Records(step: Step) {
    step.Poll? && !step.stop.Early?
  }

  ghost function ReadAfter(start: nat, w: World, view: View, runs: Runs): map<nat, Block> {
    var lo := ScanStart(start, w.s.next, view);
    w.read + map h: nat | lo <= h <= Height(view.tip) :: At(view.tip, h)
  }

  ghost predicate Next(start: nat, w: World, step: Step, w': World) {
    match step
    case Poll(view, runs, stop) =>
      && ReadableView(view, start)
      && w.unwatched <= runs.unwatched == w'.unwatched
      && (match stop
          case Completed => w'.s == Polled(start, w.s, view, runs)
          case AfterRecord => w'.s == AfterRecording(start, w.s, view, runs)
          case Early(left) => AbortedEarly(w.s, view, runs, left) && w'.s == left)
      && w'.read == (if stop.Early? then w.read else ReadAfter(start, w, view, runs))
    case Restart =>
      w' == w.(s := w.s.(next := start))
    case Elsewhere(outbox, snapshots) =>
      w' == w.(s := w.s.(outbox := outbox, snapshots := snapshots))
  }

  ghost predicate Initial(start: nat, w: World) {
    w.s.events == map[] && w.s.next == start && w.read == map[] && w.unwatched == {}
  }

  /** The finality hypothesis for one poll: a block a recorded scan read, if the chain has replaced
      it since and no later scan read its height again, is still above the finalized head. */
  ghost predicate Final(w: World, view: View) {
    forall h | h in w.read && h <= FinalizedHead(view) :: At(view.tip, h) == w.read[h]
  }

  ghost predicate Run(start: nat, ws: seq<World>, steps: seq<Step>) {
    && |ws| == |steps| + 1
    && Initial(start, ws[0])
    && (forall i | 0 <= i < |steps| :: Next(start, ws[i], steps[i], ws[i + 1]))
    && (forall i | 0 <= i < |steps| && Records(steps[i]) :: Final(ws[i], steps[i].view))
  }

  /** Rows are of blocks read; what was read below the cursor is all there. */
  ghost predicate Inv(start: nat, w: World) {
    && RowsAreEvents(w.s)
    && (forall h | h in w.read :: Height(w.read[h]) == h)
    && (forall k | k in w.s.events && w.s.events[k].canonical && IsWatched(w.s.events[k].run, w.unwatched) ::
          Height(k.block) in w.read && w.read[Height(k.block)] == k.block)
    && (forall h | start <= h < w.s.next :: h in w.read)
    && (forall k: Key | IsEvent(k) && start <= Height(k.block) < w.s.next
                        && Height(k.block) in w.read && w.read[Height(k.block)] == k.block ::
          k in w.s.events && w.s.events[k].canonical)
  }

  /** The chain read still has the block a recorded scan last read at this height. */
  ghost predicate StillRead(w: World, view: View, h: nat) {
    h in w.read && h <= Height(view.tip) && At(view.tip, h) == w.read[h]
  }

  /** What the blocks read make of agreement: at each height of a watched canonical row the finalized
      head has passed, the block read is still the chain's; and where, below the scan's start, it is
      not, each of the new block's events is recorded already or brought by a receipt. */
  ghost predicate ReadPartAgrees(start: nat, w: World, view: View, runs: Runs)
    requires Consistent(view)
  {
    && (forall k | k in w.s.events && w.s.events[k].canonical && IsWatched(w.s.events[k].run, runs.unwatched)
                   && Height(k.block) <= FinalizedHead(view) ::
          StillRead(w, view, Height(k.block)))
    && (forall k: Key | IsEvent(k) && OnChain(k.block, view.tip)
                        && start <= Height(k.block) < ScanStart(start, w.s.next, view)
                        && !StillRead(w, view, Height(k.block)) ::
          (k in w.s.events && w.s.events[k].canonical) || k in PollLogs(start, w.s, view, runs))
  }

  lemma ReadPartIsSettledPart(start: nat, w: World, view: View, runs: Runs)
    requires ReadableView(view, start) && Inv(start, w) && w.unwatched <= runs.unwatched
    ensures ReadPartAgrees(start, w, view, runs) <==> SettledPartAgrees(w.s, start, view, runs)
  {
    forall k | k in w.s.events && w.s.events[k].canonical && IsWatched(w.s.events[k].run, runs.unwatched)
               && Height(k.block) <= FinalizedHead(view)
      ensures StillRead(w, view, Height(k.block)) <==> OnChain(k.block, view.tip)
    {
      assert w.read[Height(k.block)] == k.block;
    }
    forall k: Key | IsEvent(k) && OnChain(k.block, view.tip)
                    && start <= Height(k.block) < ScanStart(start, w.s.next, view)
                    && StillRead(w, view, Height(k.block))
      ensures k in w.s.events && w.s.events[k].canonical
    {
      assert w.read[Height(k.block)] == k.block;
    }
  }

  lemma FinalReadPartAgrees(start: nat, w: World, view: View, runs: Runs)
    requires ReadableView(view, start) && Inv(start, w) && Final(w, view) && w.unwatched <= runs.unwatched
    ensures ReadPartAgrees(start, w, view, runs)
  {
    assert forall h | h in w.read && h <= FinalizedHead(view) :: StillRead(w, view, h);
  }

  lemma InvSettles(start: nat, w: World, view: View, runs: Runs)
    requires ReadableView(view, start) && Inv(start, w) && Final(w, view) && w.unwatched <= runs.unwatched
    ensures SettledPartAgrees(w.s, start, view, runs)
  {
    FinalReadPartAgrees(start, w, view, runs);
    ReadPartIsSettledPart(start, w, view, runs);
  }

  /** Every watched canonical row is in a block that was read at its height. */
  lemma FactsKeepRows(start: nat, w: World, c: State, logs: set<Key>, view: View, runs: Runs, w': World)
    requires Inv(start, w) && w.unwatched <= runs.unwatched
    requires CheckFacts(w.s, c, view, runs.unwatched) && RecordFacts(start, w.s, c, logs, view, w'.s)
    requires Agrees(w'.s, view.tip, start, runs.unwatched) && Final(w, view)
    requires w'.read == ReadAfter(start, w, view, runs) && w'.unwatched == runs.unwatched
    ensures forall k | k in w'.s.events && w'.s.events[k].canonical && IsWatched(w'.s.events[k].run, runs.unwatched) ::
      Height(k.block) in w'.read && w'.read[Height(k.block)] == k.block
  {
    var lo, t := ScanStart(start, w.s.next, view), w'.s;
    forall k | k in t.events && t.events[k].canonical && IsWatched(t.events[k].run, runs.unwatched)
      ensures Height(k.block) in w'.read && w'.read[Height(k.block)] == k.block
    {
      var h := Height(k.block);
      if h < lo {
        assert start <= h < w.s.next && h <= FinalizedHead(view);
        assert h in w.read && At(view.tip, h) == w.read[h];
      }
    }
  }

  lemma FactsKeepEvent(start: nat, w: World, c: State, logs: set<Key>, view: View, runs: Runs, w': World, k: Key)
    requires Inv(start, w) && w.unwatched <= runs.unwatched
    requires CheckFacts(w.s, c, view, runs.unwatched) && RecordFacts(start, w.s, c, logs, view, w'.s)
    requires Final(w, view) && w'.read == ReadAfter(start, w, view, runs)
    requires IsEvent(k) && start <= Height(k.block) < w'.s.next
    requires Height(k.block) in w'.read && w'.read[Height(k.block)] == k.block
    ensures k in w'.s.events && w'.s.events[k].canonical
  {
    if ScanStart(start, w.s.next, view) <= Height(k.block) <= Height(view.tip) {
      assert OnChain(k.block, view.tip);
      assert k in logs;
    } else {
      assert k in w.s.events && w.s.events[k].canonical;
    }
  }

  lemma FactsKeepInv(start: nat, w: World, c: State, logs: set<Key>, view: View, runs: Runs, w': World)
    requires Inv(start, w) && w.unwatched <= runs.unwatched
    requires CheckFacts(w.s, c, view, runs.unwatched) && RecordFacts(start, w.s, c, logs, view, w'.s)
    requires Agrees(w'.s, view.tip, start, runs.unwatched) && Final(w, view)
    requires w'.read == ReadAfter(start, w, view, runs) && w'.unwatched == runs.unwatched
    ensures Inv(start, w')
  {
    FactsKeepRows(start, w, c, logs, view, runs, w');
    forall k: Key | IsEvent(k) && start <= Height(k.block) < w'.s.next
                    && Height(k.block) in w'.read && w'.read[Height(k.block)] == k.block
      ensures k in w'.s.events && w'.s.events[k].canonical
    {
      FactsKeepEvent(start, w, c, logs, view, runs, w', k);
    }
  }

  lemma RecordKeepsInv(start: nat, w: World, view: View, runs: Runs, w': World)
    requires ReadableView(view, start) && Inv(start, w) && Final(w, view) && w.unwatched <= runs.unwatched
    requires w'.s.events == Polled(start, w.s, view, runs).events
    requires w'.s.next == Polled(start, w.s, view, runs).next
    requires w'.read == ReadAfter(start, w, view, runs) && w'.unwatched == runs.unwatched
    ensures Agrees(w'.s, view.tip, start, runs.unwatched)
    ensures Inv(start, w')
  {
    InvSettles(start, w, view, runs);
    PollAgreesIff(start, w.s, view, runs);
    PollEffect(start, w.s, view, runs);
    FactsKeepInv(start, w, Checked(w.s, view, runs), PollLogs(start, w.s, view, runs), view, runs, w');
  }

  lemma AbortKeepsInv(start: nat, w: World, view: View, runs: Runs, w': World)
    requires Inv(start, w) && w.unwatched <= runs.unwatched == w'.unwatched && w'.read == w.read
    requires AbortedEarly(w.s, view, runs, w'.s)
    ensures Inv(start, w')
  {
    CheckEffect(w.s, view, runs);
  }

  lemma StepKeepsInv(start: nat, w: World, step: Step, w': World)
    requires Inv(start, w) && Next(start, w, step, w')
    requires Records(step) ==> Final(w, step.view)
    ensures Inv(start, w')
    ensures Records(step) ==> Agrees(w'.s, step.view.tip, start, step.runs.unwatched)
  {
    match step
    case Poll(view, runs, stop) =>
      if stop.Early? {
        AbortKeepsInv(start, w, view, runs, w');
      } else {
        RecordKeepsInv(start, w, view, runs, w');
      }
    case Restart =>
    case Elsewhere(_, _) =>
  }

  lemma {:induction false} RunKeepsInv(start: nat, ws: seq<World>, steps: seq<Step>, n: nat)
    requires Run(start, ws, steps) && n <= |steps|
    ensures Inv(start, ws[n])
  {
    if n > 0 {
      RunKeepsInv(start, ws, steps, n - 1);
      StepKeepsInv(start, ws[n - 1], steps[n - 1], ws[n]);
    }
  }

  /** Over every run of polls, aborted or not, restarts and other writers: each poll that records
      its events leaves the rows exactly the exchange events of the chain it read. */
  lemma EveryRecordedPollAgrees(start: nat, ws: seq<World>, steps: seq<Step>, i: nat)
    requires Run(start, ws, steps) && i < |steps| && Records(steps[i])
    ensures Agrees(ws[i + 1].s, steps[i].view.tip, start, steps[i].runs.unwatched)
  {
    RunKeepsInv(start, ws, steps, i);
    StepKeepsInv(start, ws[i], steps[i], ws[i + 1]);
  }

  /** And the next recorded poll after any such run, with nothing asked of finality: it agrees if and
      only if the blocks read so far say so. */
  lemma NextPollAgreesIff(start: nat, ws: seq<World>, steps: seq<Step>, view: View, runs: Runs)
    requires Run(start, ws, steps) && ReadableView(view, start) && ws[|steps|].unwatched <= runs.unwatched
    ensures Agrees(Polled(start, ws[|steps|].s, view, runs), view.tip, start, runs.unwatched)
       <==> ReadPartAgrees(start, ws[|steps|], view, runs)
  {
    RunKeepsInv(start, ws, steps, |steps|);
    PollAgreesIff(start, ws[|steps|].s, view, runs);
    ReadPartIsSettledPart(start, ws[|steps|], view, runs);
  }
}

/** Where the finality hypothesis is needed, and what is enough for it. */
module IndexerCursor {
  import opened Common
  import opened Chain
  import opened IndexerSpec
  import opened IndexerAgreement

  /** Everything read so far is on the chain ending in `tip`. */
  ghost predicate ReadIsOn(start: nat, w: World, tip: Block) {
    forall h | h in w.read :: start <= h <= Height(tip) && At(tip, h) == w.read[h]
  }

  /** Between two scans, no block of the first is replaced at or below the second's finalized head. */
  ghost predicate ReplacedOnlyAboveFinality(tip: Block, view: View) {
    forall h: nat | h <= Height(tip) && h <= FinalizedHead(view) :: At(view.tip, h) == At(tip, h)
  }

  lemma GrowingPoll(start: nat, w: World, tip: Block, view: View, runs: Runs, w': World)
    requires ReadIsOn(start, w, tip) && ReplacedOnlyAboveFinality(tip, view)
    requires Height(tip) <= Height(view.tip)
    requires w'.read == ReadAfter(start, w, view, runs)
    ensures Final(w, view)
    ensures ReadIsOn(start, w', view.tip)
  {
    forall h | h in w'.read
      ensures start <= h <= Height(view.tip) && At(view.tip, h) == w'.read[h]
    {
      if h < ScanStart(start, w.s.next, view) {
        assert h in w.read && h <= FinalizedHead(view);
      }
    }
  }

  /** A run in which each recorded poll is only compared with the one recorded before it, of tip
      `tips[i]`: nothing of that chain is replaced at or below its finalized head, and its own head is
      no lower. */
  ghost predicate GrowingRun(start: nat, ws: seq<World>, steps: seq<Step>, tips: seq<Block>) {
    && |ws| == |steps| + 1 == |tips|
    && Initial(start, ws[0]) && tips[0] == Genesis
    && (forall i | 0 <= i < |steps| :: Next(start, ws[i], steps[i], ws[i + 1]))
    && (forall i | 0 <= i < |steps| :: Compared(tips[i], steps[i], tips[i + 1]))
  }

  ghost predicate Compared(tip: Block, step: Step, tip': Block) {
    if Records(step) then
      ReplacedOnlyAboveFinality(tip, step.view) && Height(tip) <= Height(step.view.tip) && tip' == step.view.tip
    else tip' == tip
  }

  lemma FinalOnTip(start: nat, w: World, tip: Block, view: View)
    requires ReadIsOn(start, w, tip) && ReplacedOnlyAboveFinality(tip, view)
    ensures Final(w, view)
  {
  }

  lemma GrowingStep(start: nat, w: World, tip: Block, step: Step, w': World, tip': Block)
    requires ReadIsOn(start, w, tip) && Next(start, w, step, w') && Compared(tip, step, tip')
    ensures ReadIsOn(start, w', tip')
  {
    if Records(step) {
      GrowingPoll(start, w, tip, step.view, step.runs, w');
    } else {
      assert w'.read == w.read;
    }
  }

  lemma {:induction false} GrowingRunReads(start: nat, ws: seq<World>, steps: seq<Step>, tips: seq<Block>, n: nat)
    requires GrowingRun(start, ws, steps, tips) && n <= |steps|
    ensures ReadIsOn(start, ws[n], tips[n])
  {
    if n > 0 {
      GrowingRunReads(start, ws, steps, tips, n - 1);
      GrowingStep(start, ws[n - 1], tips[n - 1], steps[n - 1], ws[n], tips[n]);
    }
  }

  /** If the head never shrinks between recorded polls, comparing each with the one before it is
      enough: over the whole run the finality hypothesis holds, and every recorded poll agrees. */
  lemma GrowingHeadsAreEnough(start: nat, ws: seq<World>, steps: seq<Step>, tips: seq<Block>)
    requires GrowingRun(start, ws, steps, tips)
    ensures Run(start, ws, steps)
    ensures forall i | 0 <= i < |steps| && Records(steps[i]) ::
      Agrees(ws[i + 1].s, steps[i].view.tip, start, steps[i].runs.unwatched)
  {
    forall i | 0 <= i < |steps| && Records(steps[i])
      ensures Final(ws[i], steps[i].view)
    {
      GrowingRunReads(start, ws, steps, tips, i);
      assert Compared(tips[i], steps[i], tips[i + 1]);
      FinalOnTip(start, ws[i], tips[i], steps[i].view);
    }
    forall i | 0 <= i < |steps| && Records(steps[i])
      ensures Agrees(ws[i + 1].s, steps[i].view.tip, start, steps[i].runs.unwatched)
    {
      EveryRecordedPollAgrees(start, ws, steps, i);
    }
  }

  const MAIN1 := Block(Genesis, [])
  const MAIN2 := Block(MAIN1, [])
  const FORK2 := Block(MAIN1, [ExchangeEvent(7, 1)])
  const FORK3 := Block(FORK2, [])
  const NO_RUNS := Runs(map[], {}, {}, map[])
  const FIRST := View(MAIN2, 0, map[])
  const SECOND := View(MAIN1, 0, map[])
  const THIRD := View(FORK3, 2, map[])

  predicate Quiet(tip: Block) {
    tip.Genesis? || (tip.logs == [] && Quiet(tip.parent))
  }

  lemma {:induction false} QuietChainsHaveNoEvents(tip: Block, n: nat)
    requires Quiet(tip) && n <= Height(tip)
    ensures Logs(At(tip, n)) == []
  {
    if n < Height(tip) {
      QuietChainsHaveNoEvents(tip.parent, n);
    }
  }

  /** A poll of a quiet chain, over empty tables, only moves the cursor. */
  lemma QuietPoll(s: State, view: View)
    requires s.events == map[] && s.snapshots == [] && s.outbox == []
    requires Quiet(view.tip) && view.receipts == map[]
    ensures Polled(0, s, view, NO_RUNS) == s.(next := Max(s.next, Height(view.tip) + 1))
    ensures Agrees(Polled(0, s, view, NO_RUNS), view.tip, 0, {})
  {
    assert Checked(s, view, NO_RUNS) == s;
    forall k: Key | OnChain(k.block, view.tip)
      ensures !IsEvent(k)
    {
      QuietChainsHaveNoEvents(view.tip, Height(k.block));
    }
    assert PollLogs(0, s, view, NO_RUNS) == {};
  }

  /** Over empty tables, an event below the scan's start is not read. */
  lemma BelowTheCursorIsMissed(s: State, view: View, k: Key)
    requires s.events == map[] && s.snapshots == [] && s.outbox == [] && view.receipts == map[]
    requires IsEvent(k) && OnChain(k.block, view.tip) && Height(k.block) < ScanStart(0, s.next, view)
    ensures !Agrees(Polled(0, s, view, NO_RUNS), view.tip, 0, {})
  {
    assert Checked(s, view, NO_RUNS) == s;
    assert k !in PollLogs(0, s, view, NO_RUNS);
    PollAgreesIff(0, s, view, NO_RUNS);
  }

  lemma EachViewKeepsTheLast()
    ensures ReplacedOnlyAboveFinality(FIRST.tip, SECOND) && ReplacedOnlyAboveFinality(SECOND.tip, THIRD)
    ensures OnChain(FORK2, THIRD.tip) && Height(FORK2) == 2
  {
    assert Height(MAIN1) == 1 && Height(FORK2) == 2;
    assert At(THIRD.tip, 2) == FORK2 && At(THIRD.tip, 1) == MAIN1 && At(THIRD.tip, 0) == Genesis;
  }

  /** The cursor is never lowered to a head that shrank. Three polls, each finding every block of
      the one before it at or below its own finalized head: the head goes from 2 to 1, the chain
      then grows another block 2 and finalizes it, and the event in it is never read. */
  lemma ShrunkHeadMissesAnEvent(s0: State, v1: View, v2: View, v3: View)
    requires s0 == State(map[], [], [], 0) && v1 == FIRST && v2 == SECOND && v3 == THIRD
    ensures ReplacedOnlyAboveFinality(v1.tip, v2) && ReplacedOnlyAboveFinality(v2.tip, v3)
    ensures var s1 := Polled(0, s0, v1, NO_RUNS);
      var s2 := Polled(0, s1, v2, NO_RUNS);
      Agrees(s1, v1.tip, 0, {}) && Agrees(s2, v2.tip, 0, {}) && !Agrees(Polled(0, s2, v3, NO_RUNS), v3.tip, 0, {})
  {
    EachViewKeepsTheLast();
    QuietPoll(s0, v1);
    var s1 := Polled(0, s0, v1, NO_RUNS);
    QuietPoll(s1, v2);
    BelowTheCursorIsMissed(Polled(0, s1, v2, NO_RUNS), v3, Key(FORK2, 7, 0));
  }
}
