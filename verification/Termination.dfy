/** Ending a session early. Each tick decides from the persisted rows what to send, so it may be lost,
    and the rows may move, at any time. */
module Termination {
  import opened Common

  datatype Kind = AbortSession | ExpireSession

  datatype TxStatus = Pending | Submitted | Included | Confirmed | Finalized | Replaced | Dropped | Reverted

  predicate Live(s: TxStatus) { !s.Replaced? && !s.Dropped? && !s.Reverted? }

  /** One outbox row of a termination: an original or a replacement of one, the code its calldata
      carries, and the chain time the driver read when it created the original. */
  datatype Row = Row(kind: Kind, original: bool, code: nat, readAt: nat, status: TxStatus)

  datatype Cause = Cause(name: nat, code: Option<nat>)

  datatype State = State(rows: seq<Row>, cause: Option<Cause>)

  /** What one look at the chain and the events shows. */
  datatype View = View(open: bool, ended: bool, headTime: nat)

  datatype Progress = Advanced | Waiting | Idle

  datatype Action = Wait | NeedsAPerson | Send(kind: Kind, code: nat)

  /** The contract takes no abort of code 0. */
  function CodeSent(code: nat): nat { if code == 0 then 1 else code }

  /** What `_terminating` decides, from the rows, the events and the head; `expiry` is the recorded
      deadline, none while no session is recorded. */
  function Decide(s: State, v: View, expiry: Option<nat>): Action
    requires s.cause.Some?
  {
    var expired := expiry.Some? && v.headTime >= expiry.value;
    if exists i :: 0 <= i < |s.rows| && Live(s.rows[i].status) then Wait
    else if v.ended || !v.open then Wait
    else if s.rows != [] && !(expired && forall i | 0 <= i < |s.rows| :: !s.rows[i].kind.ExpireSession?)
    then NeedsAPerson
    else if expired then Send(ExpireSession, 0)
    else if s.cause.value.code.Some? then Send(AbortSession, CodeSent(s.cause.value.code.value))
    else Wait
  }

  class Terminator {
    const expiry: Option<nat>
    var rows: seq<Row>
    var cause: Option<Cause>

    function Value(): State
      reads this
    {
      State(rows, cause)
    }

    constructor (expiry: Option<nat>)
      ensures this.expiry == expiry && Value() == State([], None)
    {
      this.expiry, rows, cause := expiry, [], None;
    }

    /** Changes nothing where a cause was recorded before. */
    method RequestTermination(requested: Cause)
      modifies this`cause
      ensures Value() == After(old(Value()), expiry, Request(requested))
      ensures rows == old(rows) && cause == if old(cause).Some? then old(cause) else Some(requested)
    {
      if cause.None? {
        cause := Some(requested);
      }
    }

    /** One tick: at most one row more, and whether the driver should look again. */
    method Terminating(v: View) returns (progress: Progress)
      requires cause.Some?
      modifies this`rows
      ensures Value() == After(old(Value()), expiry, Tick(v))
      ensures progress.Idle? <==> PersonIsDue(old(Value()), v, expiry)
      ensures progress.Advanced? <==> AbortIsDue(old(Value()), v, expiry) || ExpiryIsDue(old(Value()), v, expiry)
      ensures progress.Waiting? <==> rows == old(rows) && !progress.Idle?
    {
      TickSends(Value(), v, expiry);
      OverIff(rows);
      var live, expiring := false, false;
      for i := 0 to |rows|
        invariant live <==> exists j :: 0 <= j < i && Live(rows[j].status)
        invariant expiring <==> exists j :: 0 <= j < i && rows[j].kind.ExpireSession?
        invariant rows == old(rows)
      {
        live := live || Live(rows[i].status);
        expiring := expiring || rows[i].kind.ExpireSession?;
      }
      if live {
        return Waiting;
      }
      if v.ended || !v.open {
        return Waiting;
      }
      var expired := expiry.Some? && v.headTime >= expiry.value;
      if rows != [] && !(expired && !expiring) {
        return Idle;
      }
      if expired {
        rows := rows + [Row(ExpireSession, true, 0, v.headTime, Pending)];
      } else if cause.value.code.Some? {
        rows := rows + [Row(AbortSession, true, CodeSent(cause.value.code.value), v.headTime, Pending)];
      } else {
        return Waiting;
      }
      return Advanced;
    }
  }

  // ---------------------------------------------------------------------------------------------
  // Everything else that can happen
  // ---------------------------------------------------------------------------------------------

  /** A crash before a tick's row is committed is a tick that did not happen; after it, one that did. */
  datatype Event =
    | Request(requested: Cause)
    | Tick(view: View)
    | StatusBecomes(row: nat, status: TxStatus)
    | Replace(row: nat)

  predicate Enabled(s: State, e: Event) {
    match e
    case Request(_) => true
    case Tick(_) => s.cause.Some?
    case StatusBecomes(row, _) => row < |s.rows|
    case Replace(row) => row < |s.rows|
  }

  /** Statuses move anyhow, up or back down: inclusion, reorganisation, a rival mined. A replacement
      carries its original's calldata. */
  function After(s: State, expiry: Option<nat>, e: Event): State
    requires Enabled(s, e)
  {
    match e
    case Request(requested) => if s.cause.None? then s.(cause := Some(requested)) else s
    case Tick(v) =>
      var action := Decide(s, v, expiry);
      if action.Send? then s.(rows := s.rows + [Row(action.kind, true, action.code, v.headTime, Pending)]) else s
    case StatusBecomes(row, status) => s.(rows := s.rows[row := s.rows[row].(status := status)])
    case Replace(row) =>
      s.(rows := s.rows[row := s.rows[row].(status := Replaced)] + [s.rows[row].(original := false, status := Pending)])
  }

  ghost predicate History(ss: seq<State>, es: seq<Event>, expiry: Option<nat>) {
    && |ss| == |es| + 1 && ss[0] == State([], None)
    && forall i | 0 <= i < |es| :: Enabled(ss[i], es[i]) && ss[i + 1] == After(ss[i], expiry, es[i])
  }

  // ---------------------------------------------------------------------------------------------
  // What no history breaks
  // ---------------------------------------------------------------------------------------------

  ghost predicate Original(s: State, i: int, kind: Kind) {
    0 <= i < |s.rows| && s.rows[i].original && s.rows[i].kind == kind
  }

  ghost predicate AtMostOnce(s: State, kind: Kind) {
    forall i, j :: Original(s, i, kind) && Original(s, j, kind) ==> i == j
  }

  /** Each kind is sent at most once, an abort first of all, before the deadline and with the code of
      the first termination recorded, an expiry at or after the deadline. */
  ghost predicate InOrder(s: State, expiry: Option<nat>) {
    && AtMostOnce(s, AbortSession) && AtMostOnce(s, ExpireSession)
    && (s.rows != [] ==> s.rows[0].original && s.cause.Some?)
    && (forall i :: Original(s, i, AbortSession) ==>
          i == 0 && (expiry.Some? ==> s.rows[i].readAt < expiry.value)
          && s.cause.Some? && s.cause.value.code.Some?
          && s.rows[i].code == CodeSent(s.cause.value.code.value))
    && (forall i :: Original(s, i, ExpireSession) ==> expiry.Some? && s.rows[i].readAt >= expiry.value)
    && (forall i | 0 <= i < |s.rows| && !s.rows[i].original ::
          exists j :: Original(s, j, s.rows[i].kind) && j < i && s.rows[j].code == s.rows[i].code)
  }

  lemma TickKeepsOrder(s: State, v: View, expiry: Option<nat>)
    requires InOrder(s, expiry) && s.cause.Some?
    ensures InOrder(After(s, expiry, Tick(v)), expiry)
  {
    var s' := After(s, expiry, Tick(v));
    forall i | 0 <= i < |s'.rows| && !s'.rows[i].original
      ensures exists j :: Original(s', j, s'.rows[i].kind) && j < i && s'.rows[j].code == s'.rows[i].code
    {
      var j :| Original(s, j, s.rows[i].kind) && j < i && s.rows[j].code == s.rows[i].code;
      assert Original(s', j, s'.rows[i].kind);
    }
    forall i | Original(s', i, AbortSession) || Original(s', i, ExpireSession)
      ensures i == |s.rows| || Original(s, i, s'.rows[i].kind)
    {
    }
    if |s'.rows| > |s.rows| && s.rows != [] {
      assert forall i | 0 <= i < |s.rows| :: !s.rows[i].kind.ExpireSession?;
    }
  }

  lemma StatusKeepsOrder(s: State, row: nat, status: TxStatus, expiry: Option<nat>)
    requires InOrder(s, expiry) && row < |s.rows|
    ensures InOrder(s.(rows := s.rows[row := s.rows[row].(status := status)]), expiry)
  {
    var s' := s.(rows := s.rows[row := s.rows[row].(status := status)]);
    assert forall i, kind :: Original(s', i, kind) <==> Original(s, i, kind);
    forall i | 0 <= i < |s'.rows| && !s'.rows[i].original
      ensures exists j :: Original(s', j, s'.rows[i].kind) && j < i && s'.rows[j].code == s'.rows[i].code
    {
      var j :| Original(s, j, s.rows[i].kind) && j < i && s.rows[j].code == s.rows[i].code;
      assert Original(s', j, s'.rows[i].kind);
    }
  }

  lemma ReplaceKeepsOrder(s: State, row: nat, expiry: Option<nat>)
    requires InOrder(s, expiry) && row < |s.rows|
    ensures InOrder(After(s, expiry, Replace(row)), expiry)
  {
    StatusKeepsOrder(s, row, Replaced, expiry);
    var s1, s' := s.(rows := s.rows[row := s.rows[row].(status := Replaced)]), After(s, expiry, Replace(row));
    assert forall i, kind :: Original(s', i, kind) <==> Original(s1, i, kind);
    forall i | 0 <= i < |s'.rows| && !s'.rows[i].original
      ensures exists j :: Original(s', j, s'.rows[i].kind) && j < i && s'.rows[j].code == s'.rows[i].code
    {
      var k := if i < |s.rows| then i else row;
      if s1.rows[k].original {
        assert Original(s', k, s'.rows[i].kind);
      } else {
        var j :| Original(s1, j, s1.rows[k].kind) && j < k && s1.rows[j].code == s1.rows[k].code;
        assert Original(s', j, s'.rows[i].kind);
      }
    }
  }

  /** In every history: at most one abort is ever originated, before the deadline and with the code
      first recorded; at most one expiry, at or after it; no abort after an expiry; every other row
      replaces one of these two; and the first cause is kept. */
  lemma {:induction false} EveryTermination(ss: seq<State>, es: seq<Event>, expiry: Option<nat>, n: nat)
    requires History(ss, es, expiry) && n <= |es|
    ensures InOrder(ss[n], expiry)
    ensures forall m | 0 <= m <= n && ss[m].cause.Some? :: ss[n].cause == ss[m].cause
    ensures forall i, j :: Original(ss[n], i, AbortSession) && Original(ss[n], j, ExpireSession) ==> i < j
  {
    if n > 0 {
      EveryTermination(ss, es, expiry, n - 1);
      match es[n - 1]
      case Request(_) =>
      case Tick(v) => TickKeepsOrder(ss[n - 1], v, expiry);
      case StatusBecomes(row, status) => StatusKeepsOrder(ss[n - 1], row, status, expiry);
      case Replace(row) => ReplaceKeepsOrder(ss[n - 1], row, expiry);
    }
    assert forall j :: Original(ss[n], j, ExpireSession) ==> !Original(ss[n], j, AbortSession);
  }

  // ---------------------------------------------------------------------------------------------
  // What a tick sends
  // ---------------------------------------------------------------------------------------------

  predicate PastDeadline(v: View, expiry: Option<nat>) { expiry.Some? && expiry.value <= v.headTime }

  /** The session stands open on the chain. */
  predicate Standing(v: View) { v.open && !v.ended }

  /** Every row sent so far is replaced, dropped or reverted. */
  predicate AllOver(rows: seq<Row>) { forall row | row in rows :: row.status in {Replaced, Dropped, Reverted} }

  predicate ExpirySent(rows: seq<Row>) { exists row | row in rows :: row.kind.ExpireSession? }

  predicate AbortIsDue(s: State, v: View, expiry: Option<nat>)
    requires s.cause.Some?
  {
    s.rows == [] && Standing(v) && !PastDeadline(v, expiry) && s.cause.value.code.Some?
  }

  predicate ExpiryIsDue(s: State, v: View, expiry: Option<nat>) {
    AllOver(s.rows) && !ExpirySent(s.rows) && Standing(v) && PastDeadline(v, expiry)
  }

  /** All was sent that may be, and none of it ended the session. */
  predicate PersonIsDue(s: State, v: View, expiry: Option<nat>) {
    s.rows != [] && AllOver(s.rows) && Standing(v) && (ExpirySent(s.rows) || !PastDeadline(v, expiry))
  }

  lemma OverIff(rows: seq<Row>)
    ensures AllOver(rows) <==> !exists i :: 0 <= i < |rows| && Live(rows[i].status)
    ensures ExpirySent(rows) <==> exists i :: 0 <= i < |rows| && rows[i].kind.ExpireSession?
  {
    if i :| 0 <= i < |rows| && Live(rows[i].status) {
      assert rows[i] in rows;
    }
    if i :| 0 <= i < |rows| && rows[i].kind.ExpireSession? {
      assert rows[i] in rows;
    }
  }

  /** Exactly when a tick sends something, and what: an abort with the recorded code, 1 for 0, once and
      before the deadline; an expiry once at or after it, whatever became of the abort. */
  lemma TickSends(s: State, v: View, expiry: Option<nat>)
    requires s.cause.Some?
    ensures var s' := After(s, expiry, Tick(v));
      && s'.cause == s.cause
      && (AbortIsDue(s, v, expiry) ==>
            var code := s.cause.value.code.value;
            s'.rows == s.rows + [Row(AbortSession, true, if code == 0 then 1 else code, v.headTime, Pending)])
      && (ExpiryIsDue(s, v, expiry) ==> s'.rows == s.rows + [Row(ExpireSession, true, 0, v.headTime, Pending)])
      && (!AbortIsDue(s, v, expiry) && !ExpiryIsDue(s, v, expiry) ==> s'.rows == s.rows)
    ensures Decide(s, v, expiry).NeedsAPerson? <==> PersonIsDue(s, v, expiry)
    ensures Decide(s, v, expiry).Wait? <==>
      !AbortIsDue(s, v, expiry) && !ExpiryIsDue(s, v, expiry) && !PersonIsDue(s, v, expiry)
  {
    OverIff(s.rows);
  }

  /** A session is never left standing for want of the driver: at every tick past its deadline that sees it
      stand, something is still on its way, the expiry is sent, or a person is asked for. */
  lemma NeverLeftStanding(s: State, v: View, expiry: Option<nat>)
    requires s.cause.Some? && Standing(v) && PastDeadline(v, expiry)
    ensures (exists row | row in s.rows :: row.status in {Pending, Submitted, Included, Confirmed, Finalized})
            || ExpiryIsDue(s, v, expiry) || PersonIsDue(s, v, expiry)
    ensures AllOver(s.rows) && !ExpirySent(s.rows) ==> ExpirySent(After(s, expiry, Tick(v)).rows)
  {
    if row :| row in s.rows && row.status !in {Replaced, Dropped, Reverted} {
      assert !row.status.Replaced? && !row.status.Dropped? && !row.status.Reverted?;
    }
    if AllOver(s.rows) && !ExpirySent(s.rows) {
      TickSends(s, v, expiry);
      var rows := After(s, expiry, Tick(v)).rows;
      assert rows[|s.rows|] in rows;
    }
  }
}
