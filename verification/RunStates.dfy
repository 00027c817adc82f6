/** The states of a run. A caller decides on what it read, possibly long before; each move looks at the
    row again. */
module RunStates {
  import opened Common

  datatype RunState = Draft | Validated | Preparing | Running | Paused | RecoveryRequired | Terminal | FailedSetup

  datatype Cause =
    | Start | StepCause | StepComplete | SessionOpen | OperatorPause | ReorgCause | Recovered | ValidationFailed
    | ChainUnavailable | OtherCause(code: nat)

  datatype OutcomeKind = Pending | SettledOutcome | ClosedOutcome | ExpiredOutcome | AbortedOutcome

  datatype Termination = Termination(cause: Cause, code: Option<nat>)

  datatype Run = Run(state: RunState, cause: Option<Cause>, outcome: OutcomeKind, termination: Option<Termination>)

  /** The transitions the diagram draws. */
  predicate Allowed(current: RunState, target: RunState) {
    match current
    case Draft => target.Validated?
    case Validated => target.Draft? || target.Preparing?
    case Preparing => target.Running? || target.Paused? || target.FailedSetup? || target.RecoveryRequired?
    case Running => target.Paused? || target.RecoveryRequired? || target.Terminal?
    case Paused => target.Running? || target.Paused? || target.RecoveryRequired? || target.Terminal?
    case RecoveryRequired => target.Paused? || target.Preparing? || target.Terminal? || target.FailedSetup?
    case Terminal => false
    case FailedSetup => false
  }

  predicate Active(s: RunState) { s.Preparing? || s.Running? || s.Paused? || s.RecoveryRequired? }

  predicate Finished(s: RunState) { s.Terminal? || s.FailedSetup? }

  datatype Error = InvalidState | InvalidTransition | TurnInProgress

  /** The states a caller decided from; anything at all when it names none. */
  type Expected = Option<set<RunState>>

  predicate Admits(from: Expected, s: RunState) { from.None? || s in from.value }

  function Moved(run: Run, target: RunState, cause: Option<Cause>, from: Expected): Result<Run, Error> {
    if !Admits(from, run.state) then Err(InvalidState)
    else if run.state != target && !Allowed(run.state, target) then Err(InvalidTransition)
    else Ok(run.(state := target, cause := cause))
  }

  function Stepped(run: Run): Result<Run, Error> {
    if !run.state.Paused? then Err(InvalidState)
    else if run.cause == Some(StepCause) then Err(TurnInProgress)
    else Ok(run.(cause := Some(StepCause)))
  }

  /** A run that has an outcome keeps it; a new one takes over a recorded termination's cause. */
  function OutcomeRecorded(run: Run, target: RunState, kind: OutcomeKind): Result<Run, Error> {
    if !run.outcome.Pending? then Ok(run)
    else if !Allowed(run.state, target) then Err(InvalidTransition)
    else
      var cause := if run.termination.Some? then Some(run.termination.value.cause) else run.cause;
      Ok(run.(state := target, outcome := kind, cause := cause))
  }

  function TerminationRequested(run: Run, cause: Cause, code: Option<nat>): Run {
    if run.termination.Some? then run else run.(termination := Some(Termination(cause, code)))
  }

  /** One unit of work on the run's row. */
  datatype Call =
    | MoveCall(target: RunState, cause: Option<Cause>, from: Expected)
    | StepCall
    | OutcomeCall(target: RunState, kind: OutcomeKind)
    | TerminationCall(requested: Cause, code: Option<nat>)

  function Applied(run: Run, c: Call): Result<Run, Error> {
    match c
    case MoveCall(target, cause, from) => Moved(run, target, cause, from)
    case StepCall => Stepped(run)
    case OutcomeCall(target, kind) => OutcomeRecorded(run, target, kind)
    case TerminationCall(cause, code) => Ok(TerminationRequested(run, cause, code))
  }

  /** The row, and the `run.state` events appended beside it. */
  class RunRow {
    var run: Run
    var events: seq<(RunState, Option<Cause>)>

    constructor (run: Run)
      ensures this.run == run && events == []
    {
      this.run, events := run, [];
    }

    /** `force` records an event even when nothing changed. */
    method Move(target: RunState, cause: Option<Cause>, from: Expected, force: bool) returns (error: Option<Error>)
      modifies this
      ensures match Moved(old(run), target, cause, from)
        case Err(e) => error == Some(e) && run == old(run) && events == old(events)
        case Ok(updated) =>
          error == None && run == updated
          && events == old(events) + if run != old(run) || force then [(target, cause)] else []
    {
      if from.Some? && run.state !in from.value {
        return Some(InvalidState);
      }
      if run.state != target && !Allowed(run.state, target) {
        return Some(InvalidTransition);
      }
      if run.state == target && run.cause == cause && !force {
        return None;
      }
      run := run.(state := target, cause := cause);
      events := events + [(target, cause)];
      return None;
    }

    /** Of two steps racing, one is accepted. */
    method BeginStep() returns (error: Option<Error>)
      modifies this
      ensures match Stepped(old(run))
        case Err(e) => error == Some(e) && run == old(run) && events == old(events)
        case Ok(updated) => error == None && run == updated && events == old(events) + [(Paused, Some(StepCause))]
    {
      if !run.state.Paused? {
        return Some(InvalidState);
      }
      if run.cause == Some(StepCause) {
        return Some(TurnInProgress);
      }
      run := run.(cause := Some(StepCause));
      events := events + [(Paused, Some(StepCause))];
      return None;
    }

    method RecordOutcome(target: RunState, kind: OutcomeKind) returns (error: Option<Error>)
      modifies this
      ensures match OutcomeRecorded(old(run), target, kind)
        case Err(e) => error == Some(e) && run == old(run) && events == old(events)
        case Ok(updated) =>
          error == None && run == updated
          && events == old(events) + if old(run).outcome.Pending? then [(target, updated.cause)] else []
    {
      if !run.outcome.Pending? {
        return None;
      }
      if !Allowed(run.state, target) {
        return Some(InvalidTransition);
      }
      var cause := if run.termination.Some? then Some(run.termination.value.cause) else run.cause;
      run := run.(outcome := kind, state := target, cause := cause);
      events := events + [(target, cause)];
      return None;
    }

    /** Changes nothing where a termination was asked for before. */
    method RequestTermination(cause: Cause, code: Option<nat>)
      modifies this`run
      ensures run == TerminationRequested(old(run), cause, code)
    {
      if run.termination.None? {
        run := run.(termination := Some(Termination(cause, code)));
      }
    }
  }

  // ---------------------------------------------------------------------------------------------
  // What the operations and the driver call
  // ---------------------------------------------------------------------------------------------

  /** Everything that reads the run and then changes it. `read` is the run as it was read, which may
      have moved on since. */
  datatype Operation =
    | ValidateOp(read: Run, passed: bool)
    | StartOp(read: Run)
    | StepOp(read: Run)
    | PauseOp(read: Run)
    | ResumePausedOp(read: Run, reconciled: bool)
    | RecoverRunOp(setUp: bool)
    | RecoverOutageOp
    | RequestTerminationOp(cause: Cause, code: Option<nat>)
    | SetupDoneOp(read: Run)
    | SetupFailedOp(cause: Cause)
    | ReorgOp(read: Run)
    | RecoveryOp(read: Run, cause: Cause)
    | TurnConfirmedOp(read: Run)
    | OutcomeOp(read: Run, kind: OutcomeKind, setUp: bool, settlementOk: bool)
    | EndWithoutSessionOp(read: Run)
    | StrandOp(read: Run)

  predicate Terminating(run: Run) { run.termination.Some? && run.outcome.Pending? }

  /** The unit of work an operation comes to, none when its read refuses it. */
  function CallOf(op: Operation): Option<Call> {
    match op
    case ValidateOp(read, passed) =>
      var target := if passed then Validated else Draft;
      if (read.state.Draft? || read.state.Validated?) && target != read.state
      then Some(MoveCall(target, if passed then None else Some(ValidationFailed), Some({read.state}))) else None
    case StartOp(read) =>
      if read.state.Validated? then Some(MoveCall(Preparing, Some(Start), Some({Validated}))) else None
    case StepOp(read) =>
      if Terminating(read) then None
      else if read.state.Validated? then Some(MoveCall(Preparing, Some(StepCause), Some({Validated})))
      else if read.state.Paused? && read.cause != Some(StepCause) then Some(StepCall) else None
    case PauseOp(read) =>
      if read.state.Running? then Some(MoveCall(Paused, Some(OperatorPause), Some({Running}))) else None
    case ResumePausedOp(read, reconciled) =>
      if read.state.Paused? && !Terminating(read) && reconciled
      then Some(MoveCall(Running, None, Some({Paused}))) else None
    case RecoverRunOp(setUp) =>
      Some(MoveCall(if setUp then Paused else Preparing, Some(Recovered), Some({RecoveryRequired})))
    case RecoverOutageOp => Some(MoveCall(RecoveryRequired, Some(OtherCause(0)), Some({RecoveryRequired})))
    case RequestTerminationOp(cause, code) => Some(TerminationCall(cause, code))
    case SetupDoneOp(read) =>
      if read.cause == Some(Start) then Some(MoveCall(Running, None, Some({Preparing})))
      else
        var cause := if read.cause == Some(StepCause) then StepCause else SessionOpen;
        Some(MoveCall(Paused, Some(cause), Some({Preparing})))
    case SetupFailedOp(cause) => Some(MoveCall(FailedSetup, Some(cause), Some({Preparing})))
    case ReorgOp(read) =>
      if read.state.Preparing? || read.state.Running? || read.state.Paused?
      then Some(MoveCall(if read.state.Preparing? then Preparing else Paused, Some(ReorgCause), Some({read.state})))
      else None
    case RecoveryOp(read, cause) =>
      if Active(read.state)
      then Some(MoveCall(RecoveryRequired, Some(cause), Some({Preparing, Running, Paused, RecoveryRequired})))
      else None
    case TurnConfirmedOp(read) =>
      if read.state.Paused? && read.cause == Some(StepCause)
      then Some(MoveCall(Paused, Some(StepComplete), Some({Paused}))) else None
    case OutcomeOp(read, kind, setUp, settlementOk) =>
      var target := if setUp && !read.state.Preparing? then Terminal else FailedSetup;
      if !read.outcome.Pending? || kind.Pending? || (kind.SettledOutcome? && !settlementOk)
         || !Allowed(read.state, target) then None
      else Some(OutcomeCall(target, kind))
    case EndWithoutSessionOp(read) =>
      if read.termination.None? then None
      else Some(MoveCall(FailedSetup, Some(read.termination.value.cause), Some({Preparing, RecoveryRequired})))
    case StrandOp(read) =>
      if Finished(read.state) || (read.state.RecoveryRequired? && read.cause == Some(ChainUnavailable)) then None
      else Some(MoveCall(RecoveryRequired, Some(ChainUnavailable), Some({read.state})))
  }

  function Performed(run: Run, op: Operation): Result<Run, Error> {
    if CallOf(op).None? then Ok(run) else Applied(run, CallOf(op).value)
  }

  /** Acting on whatever it read, an operation attempts a transition outside `Allowed` in two cases
      only: a run stranded where it was read, outside the active states, and an outcome whose
      run moved on to a state its target cannot follow. */
  lemma UndrawnTransitionIff(run: Run, op: Operation)
    ensures Performed(run, op) == Err(InvalidTransition) <==>
      CallOf(op).Some? &&
      ((op.StrandOp? && run.state == op.read.state && !Active(run.state))
       || (op.OutcomeOp? && run.outcome.Pending? && !Allowed(run.state, CallOf(op).value.target)))
  {
  }

  /** A run of another deployment is stranded exactly when it is preparing, running, paused or in
      recovery. One that claimed the active-run slot and crashed before it was prepared is still
      `validated`, and stranding it raises instead. */
  lemma StrandsIff(run: Run)
    requires !Finished(run.state)
    ensures Performed(run, StrandOp(run)).Ok? <==> Active(run.state)
    ensures !Active(run.state) ==> Performed(run, StrandOp(run)) == Err(InvalidTransition)
  {
  }

  // ---------------------------------------------------------------------------------------------
  // What each operation does
  // ---------------------------------------------------------------------------------------------

  /** The run is moved if it is still in one of these states, and the caller is refused otherwise. */
  predicate MovesFrom(run: Run, from: set<RunState>, target: RunState, cause: Option<Cause>, r: Result<Run, Error>) {
    if run.state in from then r == Ok(run.(state := target, cause := cause)) else r == Err(InvalidState)
  }

  predicate Unchanged(run: Run, r: Result<Run, Error>) { r == Ok(run) }

  /** The outcome is written once, with the cause of the termination if one was asked for. */
  predicate Concludes(run: Run, target: RunState, from: set<RunState>, kind: OutcomeKind, r: Result<Run, Error>) {
    if !run.outcome.Pending? then r == Ok(run)
    else if run.state !in from then r == Err(InvalidTransition)
    else r == Ok(run.(state := target, outcome := kind,
                      cause := match run.termination case Some(t) => Some(t.cause) case None => run.cause))
  }

  /** What a run ends as: a session that was set up ended, and otherwise its setup failed. */
  predicate EndsAs(run: Run, read: Run, kind: OutcomeKind, setUp: bool, r: Result<Run, Error>) {
    if setUp && !read.state.Preparing?
    then (if read.state in {Running, Paused, RecoveryRequired}
          then Concludes(run, Terminal, {Running, Paused, RecoveryRequired}, kind, r) else Unchanged(run, r))
    else if read.state in {Preparing, RecoveryRequired}
    then Concludes(run, FailedSetup, {Preparing, RecoveryRequired}, kind, r) else Unchanged(run, r)
  }

  /** The result of each operation on a run that may have moved on since it was read. */
  predicate Does(run: Run, op: Operation, r: Result<Run, Error>) {
    match op
    case ValidateOp(read, passed) =>
      if read.state.Draft? && passed then MovesFrom(run, {Draft}, Validated, None, r)
      else if read.state.Validated? && !passed then MovesFrom(run, {Validated}, Draft, Some(ValidationFailed), r)
      else Unchanged(run, r)
    case StartOp(read) =>
      if read.state.Validated? then MovesFrom(run, {Validated}, Preparing, Some(Start), r) else Unchanged(run, r)
    case StepOp(read) =>
      if read.termination.Some? && read.outcome.Pending? then Unchanged(run, r)
      else if read.state.Validated? then MovesFrom(run, {Validated}, Preparing, Some(StepCause), r)
      else if read.state.Paused? && read.cause != Some(StepCause) then
        if run.state.Paused? && run.cause == Some(StepCause) then r == Err(TurnInProgress)
        else MovesFrom(run, {Paused}, Paused, Some(StepCause), r)
      else Unchanged(run, r)
    case PauseOp(read) =>
      if read.state.Running? then MovesFrom(run, {Running}, Paused, Some(OperatorPause), r) else Unchanged(run, r)
    case ResumePausedOp(read, reconciled) =>
      if read.state.Paused? && reconciled && !(read.termination.Some? && read.outcome.Pending?)
      then MovesFrom(run, {Paused}, Running, None, r) else Unchanged(run, r)
    case RecoverRunOp(setUp) =>
      MovesFrom(run, {RecoveryRequired}, if setUp then Paused else Preparing, Some(Recovered), r)
    case RecoverOutageOp => MovesFrom(run, {RecoveryRequired}, RecoveryRequired, Some(OtherCause(0)), r)
    case RequestTerminationOp(cause, code) =>
      r == Ok(if run.termination.Some? then run else run.(termination := Some(Termination(cause, code))))
    case SetupDoneOp(read) =>
      if read.cause == Some(Start) then MovesFrom(run, {Preparing}, Running, None, r)
      else if read.cause == Some(StepCause) then MovesFrom(run, {Preparing}, Paused, Some(StepCause), r)
      else MovesFrom(run, {Preparing}, Paused, Some(SessionOpen), r)
    case SetupFailedOp(cause) => MovesFrom(run, {Preparing}, FailedSetup, Some(cause), r)
    case ReorgOp(read) =>
      if read.state.Preparing? then MovesFrom(run, {Preparing}, Preparing, Some(ReorgCause), r)
      else if read.state in {Running, Paused} then MovesFrom(run, {read.state}, Paused, Some(ReorgCause), r)
      else Unchanged(run, r)
    case RecoveryOp(read, cause) =>
      if read.state in {Preparing, Running, Paused, RecoveryRequired}
      then MovesFrom(run, {Preparing, Running, Paused, RecoveryRequired}, RecoveryRequired, Some(cause), r)
      else Unchanged(run, r)
    case TurnConfirmedOp(read) =>
      if read.state.Paused? && read.cause == Some(StepCause)
      then MovesFrom(run, {Paused}, Paused, Some(StepComplete), r) else Unchanged(run, r)
    case OutcomeOp(read, kind, setUp, settlementOk) =>
      if !read.outcome.Pending? || kind.Pending? || (kind.SettledOutcome? && !settlementOk) then Unchanged(run, r)
      else EndsAs(run, read, kind, setUp, r)
    case EndWithoutSessionOp(read) =>
      if read.termination.Some?
      then MovesFrom(run, {Preparing, RecoveryRequired}, FailedSetup, Some(read.termination.value.cause), r)
      else Unchanged(run, r)
    case StrandOp(read) =>
      if read.state in {Terminal, FailedSetup}
         || (read.state.RecoveryRequired? && read.cause == Some(ChainUnavailable)) then Unchanged(run, r)
      else if run.state == read.state && read.state in {Draft, Validated} then r == Err(InvalidTransition)
      else MovesFrom(run, {read.state}, RecoveryRequired, Some(ChainUnavailable), r)
  }

  /** Of every operation, on any run and whatever it read. */
  lemma OperationDoes(run: Run, op: Operation)
    ensures Does(run, op, Performed(run, op))
  {
  }

  /** Some operation takes a run from one state to the other. */
  ghost predicate Taken(current: RunState, target: RunState) {
    exists run: Run, op: Operation :: Takes(run, op, current, target)
  }

  predicate Takes(run: Run, op: Operation, current: RunState, target: RunState) {
    run.state == current && Performed(run, op).Ok? && Performed(run, op).value.state == target
  }

  function RunIn(state: RunState): Run { Run(state, None, Pending, None) }

  /** The operation that takes each transition drawn. */
  function OperationFor(current: RunState, target: RunState): Operation
    requires Allowed(current, target)
  {
    var run := RunIn(current);
    match target
    case Draft => ValidateOp(run, false)
    case Validated => ValidateOp(run, true)
    case Preparing => if current.Validated? then StartOp(run) else RecoverRunOp(false)
    case Running => if current.Preparing? then SetupDoneOp(run.(cause := Some(Start))) else ResumePausedOp(run, true)
    case Paused =>
      if current.Preparing? then SetupDoneOp(run)
      else if current.Running? then PauseOp(run)
      else if current.Paused? then StepOp(run) else RecoverRunOp(true)
    case RecoveryRequired => RecoveryOp(run, ChainUnavailable)
    case Terminal => OutcomeOp(run, ClosedOutcome, true, false)
    case FailedSetup => OutcomeOp(run, AbortedOutcome, false, false)
  }

  /** The diagram is exactly what the operations do: between different states, a transition is drawn if and
      only if some operation takes it. */
  lemma DrawnIffTaken(current: RunState, target: RunState)
    requires current != target
    ensures Allowed(current, target) <==> Taken(current, target)
  {
    if Allowed(current, target) {
      assert Takes(RunIn(current), OperationFor(current, target), current, target);
    }
    if run: Run, op: Operation :| Takes(run, op, current, target) {
      OperationFollows(run, op);
    }
  }

  // ---------------------------------------------------------------------------------------------
  // Every history of a run
  // ---------------------------------------------------------------------------------------------

  const CREATED: Run := Run(Draft, None, Pending, None)

  /** Operations interleaved anyhow, each with whatever it read; an error changes nothing. */
  ghost predicate History(rs: seq<Run>, ops: seq<Operation>) {
    && |rs| == |ops| + 1 && rs[0] == CREATED
    && forall i | 0 <= i < |ops| ::
         rs[i + 1] == if Performed(rs[i], ops[i]).Ok? then Performed(rs[i], ops[i]).value else rs[i]
  }

  /** One step of a history, on the state, the outcome and the termination. */
  ghost predicate Follows(r: Run, r': Run) {
    && (r'.state == r.state || Allowed(r.state, r'.state))
    && (Finished(r.state) ==> r' == r.(termination := r'.termination))
    && (!r.outcome.Pending? ==> r'.outcome == r.outcome)
    && (r.outcome.Pending? && !r'.outcome.Pending? ==> Finished(r'.state))
    && (r.termination.Some? ==> r'.termination == r.termination)
    && (!r'.outcome.Pending? && r.outcome.Pending? && r.termination.Some? ==>
          r'.cause == Some(r.termination.value.cause))
  }

  lemma OperationFollows(run: Run, op: Operation)
    requires Performed(run, op).Ok?
    ensures Follows(run, Performed(run, op).value)
  {
    if CallOf(op).Some? && CallOf(op).value.MoveCall? && Finished(run.state) {
      FinishedIsNeverExpected(run, op);
    }
  }

  /** No operation moves a run from where it is finished, not even to a new cause. */
  lemma FinishedIsNeverExpected(run: Run, op: Operation)
    requires Finished(run.state) && CallOf(op).Some? && CallOf(op).value.MoveCall?
    ensures !Admits(CallOf(op).value.from, run.state)
  {
  }

  lemma {:induction false} EveryHistory(rs: seq<Run>, ops: seq<Operation>, m: nat, n: nat)
    requires History(rs, ops) && m <= n <= |ops|
    ensures !rs[n].outcome.Pending? ==> Finished(rs[n].state)
    ensures Finished(rs[m].state) ==>
      rs[n].state == rs[m].state && rs[n].cause == rs[m].cause && rs[n].outcome == rs[m].outcome
    ensures !rs[m].outcome.Pending? ==> rs[n].outcome == rs[m].outcome
    ensures rs[m].termination.Some? ==> rs[n].termination == rs[m].termination
    ensures forall i | m <= i < n :: rs[i + 1].state == rs[i].state || Allowed(rs[i].state, rs[i + 1].state)
    decreases n
  {
    if n > 0 {
      if Performed(rs[n - 1], ops[n - 1]).Ok? {
        OperationFollows(rs[n - 1], ops[n - 1]);
      }
      EveryHistory(rs, ops, if m < n then m else n - 1, n - 1);
    }
  }
}
