/** One agent instance under concurrent turns, releases, cancellations and restarts. A turn is three
    atomic pieces, because the code suspends only waiting for the run's lock and while deciding. */
module AgentService {
  import opened Common

  type RunId = nat
  type TaskId = nat
  type Hash = nat

  /** A stored answer: a response, and whether it carries a signature. */
  datatype StoredAnswer = StoredAnswer(hash: Hash, response: nat, signed: bool)

  /** What the instance knows of one run. Records are numbered and stay when the registry forgets them:
      a turn under way goes on with the one it began with. */
  datatype RunRecord = RunRecord(run: RunId, fingerprint: nat, session: Option<nat>, turns: map<nat, StoredAnswer>,
                                 holder: Option<TaskId>, released: bool)

  /** A turn request in flight: waiting for its run's lock, or deciding under it. */
  datatype Task = Waiting(record: nat, turn: nat, hash: Hash) | Deciding(record: nat, turn: nat, hash: Hash)

  datatype Reply = Stored(response: nat) | Conflict | InvalidState | ObservationRefused | NotSigned

  /** What left the process: a signature made, an answer given; `life` counts restarts. */
  datatype Signature = Signature(life: nat, run: RunId, turn: nat)
  datatype Answer = Answer(life: nat, run: RunId, turn: nat, reply: Reply)

  datatype State = State(runs: map<RunId, nat>, released: set<RunId>, records: seq<RunRecord>, tasks: map<TaskId, Task>,
                         life: nat, signatures: seq<Signature>, answers: seq<Answer>)

  const FRESH: State := State(map[], {}, [], map[], 0, [], [])

  /** How a decision ends: something to sign, an outcome without a signature, or an error. */
  datatype Decided = ToSign(response: nat) | WithoutSignature(response: nat) | Failing

  datatype Event =
    | Provision(run: RunId, fingerprint: nat, admissible: bool)
    | Approve(run: RunId, session: nat, admissible: bool)
    | Release(run: RunId)
    | BeginTurn(task: TaskId, run: RunId, turn: nat, hash: Hash)
    | EnterTurn(task: TaskId, consistent: bool)
    | FinishTurn(task: TaskId, decided: Decided)
    | Cancel(task: TaskId)
    | Restart

  function Without(tasks: map<TaskId, Task>, task: TaskId): map<TaskId, Task> { tasks - {task} }

  predicate InRange(s: State) {
    && (forall run | run in s.runs :: s.runs[run] < |s.records|)
    && (forall t | t in s.tasks :: s.tasks[t].record < |s.records|)
  }

  /** The event can happen: a new request has a new task, a turn goes on from where it is suspended. */
  predicate Enabled(s: State, e: Event)
    requires InRange(s)
  {
    match e
    case BeginTurn(task, _, _, _) => task !in s.tasks
    case EnterTurn(task, _) => task in s.tasks && s.tasks[task].Waiting? && s.records[s.tasks[task].record].holder.None?
    case FinishTurn(task, _) => task in s.tasks && s.tasks[task].Deciding?
    case Cancel(task) => task in s.tasks
    case _ => true
  }

  function Answered(s: State, run: RunId, turn: nat, reply: Reply): State {
    s.(answers := s.answers + [Answer(s.life, run, turn, reply)])
  }

  /** The request is over, and the lock is free again if it held it. */
  function Over(s: State, task: TaskId): State
    requires InRange(s) && task in s.tasks
  {
    var t := s.tasks[task];
    s.(tasks := Without(s.tasks, task),
       records := if t.Deciding? then s.records[t.record := s.records[t.record].(holder := None)] else s.records)
  }

  function Kept(s: State, task: TaskId, response: nat, signed: bool): State
    requires InRange(s) && task in s.tasks
  {
    var t := s.tasks[task];
    var r := s.records[t.record];
    s.(records := s.records[t.record := r.(turns := r.turns[t.turn := StoredAnswer(t.hash, response, signed)])])
  }

  /** What provisioning answers: a run known here by the body it was first given, a new one by whether
      this instance admits it. `addressed` is whether the derived address is the one expected. */
  datatype ProvisionReply = Provisioned | ReleasedHere | OtherBody | OtherAddress | NotAdmitted

  function ProvisionReplyOf(s: State, run: RunId, fingerprint: nat, admissible: bool, addressed: bool): ProvisionReply
    requires InRange(s)
  {
    if run in s.released then ReleasedHere
    else if run in s.runs then
      if s.records[s.runs[run]].fingerprint != fingerprint then OtherBody
      else if !addressed then OtherAddress else Provisioned
    else if !admissible then NotAdmitted
    else if !addressed then OtherAddress else Provisioned
  }

  datatype ApproveReply = Approved | NotProvisioned | OtherSession | SessionRefused

  function ApproveReplyOf(s: State, run: RunId, session: nat, admissible: bool): ApproveReply
    requires InRange(s)
  {
    if run in s.released || run !in s.runs then NotProvisioned
    else
      var approved := s.records[s.runs[run]].session;
      if approved.None? then (if admissible then Approved else SessionRefused)
      else if approved.value != session then OtherSession else Approved
  }

  function AfterProvision(s: State, run: RunId, fingerprint: nat, admissible: bool): State {
    if run in s.released || run in s.runs || !admissible then s
    else s.(records := s.records + [RunRecord(run, fingerprint, None, map[], None, false)],
            runs := s.runs[run := |s.records|])
  }

  function AfterApprove(s: State, run: RunId, session: nat, admissible: bool): State
    requires InRange(s)
  {
    if run in s.released || run !in s.runs || s.records[s.runs[run]].session.Some? || !admissible then s
    else s.(records := s.records[s.runs[run] := s.records[s.runs[run]].(session := Some(session))])
  }

  function AfterRelease(s: State, run: RunId): State
    requires InRange(s)
  {
    s.(runs := s.runs - {run}, released := s.released + {run},
       records := if run in s.runs then s.records[s.runs[run] := s.records[s.runs[run]].(released := true)]
                  else s.records)
  }

  function AfterBegin(s: State, task: TaskId, run: RunId, turn: nat, hash: Hash): State
    requires InRange(s)
  {
    if run in s.released || run !in s.runs || s.records[s.runs[run]].session.None?
    then Answered(s, run, turn, InvalidState)
    else s.(tasks := s.tasks[task := Waiting(s.runs[run], turn, hash)])
  }

  function AfterEnter(s: State, task: TaskId, consistent: bool): State
    requires InRange(s) && task in s.tasks
  {
    var t := s.tasks[task];
    var r := s.records[t.record];
    if t.turn in r.turns then
      var kept := r.turns[t.turn];
      Answered(Over(s, task), r.run, t.turn, if kept.hash == t.hash then Stored(kept.response) else Conflict)
    else if !consistent then Answered(Over(s, task), r.run, t.turn, ObservationRefused)
    else
      s.(tasks := s.tasks[task := Deciding(t.record, t.turn, t.hash)],
         records := s.records[t.record := r.(holder := Some(task))])
  }

  function AfterFinish(s: State, task: TaskId, decided: Decided): State
    requires InRange(s) && task in s.tasks
  {
    var t := s.tasks[task];
    var r := s.records[t.record];
    match decided
    case Failing => Answered(Over(s, task), r.run, t.turn, NotSigned)
    case WithoutSignature(response) =>
      Answered(Over(Kept(s, task, response, false), task), r.run, t.turn, Stored(response))
    case ToSign(response) =>
      if r.released then Answered(Over(s, task), r.run, t.turn, InvalidState)
      else
        var signed := s.(signatures := s.signatures + [Signature(s.life, r.run, t.turn)]);
        Answered(Over(Kept(signed, task, response, true), task), r.run, t.turn, Stored(response))
  }

  function After(s: State, e: Event): State
    requires InRange(s) && Enabled(s, e)
  {
    match e
    case Provision(run, fingerprint, admissible) => AfterProvision(s, run, fingerprint, admissible)
    case Approve(run, session, admissible) => AfterApprove(s, run, session, admissible)
    case Release(run) => AfterRelease(s, run)
    case BeginTurn(task, run, turn, hash) => AfterBegin(s, task, run, turn, hash)
    case EnterTurn(task, consistent) => AfterEnter(s, task, consistent)
    case FinishTurn(task, decided) => AfterFinish(s, task, decided)
    case Cancel(task) => Over(s, task)
    case Restart => FRESH.(life := s.life + 1, signatures := s.signatures, answers := s.answers)
  }

  /** The instance itself: its registry, its records, its turns in flight, and what it let out. */
  class Instance {
    var runs: map<RunId, nat>
    var released: set<RunId>
    var records: seq<RunRecord>
    var tasks: map<TaskId, Task>
    ghost var life: nat
    ghost var signatures: seq<Signature>
    ghost var answers: seq<Answer>

    ghost function Value(): State
      reads this
    {
      State(runs, released, records, tasks, life, signatures, answers)
    }

    constructor ()
      ensures Value() == FRESH
    {
      runs, released, records, tasks := map[], {}, [], map[];
      life, signatures, answers := 0, [], [];
    }

    method Provision(run: RunId, fingerprint: nat, admissible: bool, addressed: bool) returns (reply: ProvisionReply)
      requires InRange(Value())
      modifies this
      ensures Value() == After(old(Value()), Event.Provision(run, fingerprint, admissible && addressed))
      ensures reply == ProvisionReplyOf(old(Value()), run, fingerprint, admissible, addressed)
    {
      if run in released {
        return ReleasedHere;
      }
      if run in runs {
        if records[runs[run]].fingerprint != fingerprint {
          return OtherBody;
        }
        return if addressed then Provisioned else OtherAddress;
      }
      if !admissible {
        return NotAdmitted;
      }
      if !addressed {
        return OtherAddress;
      }
      runs := runs[run := |records|];
      records := records + [RunRecord(run, fingerprint, None, map[], None, false)];
      return Provisioned;
    }

    method ApproveSession(run: RunId, session: nat, admissible: bool) returns (reply: ApproveReply)
      requires InRange(Value())
      modifies this
      ensures Value() == After(old(Value()), Approve(run, session, admissible))
      ensures reply == ApproveReplyOf(old(Value()), run, session, admissible)
    {
      if run in released || run !in runs {
        return NotProvisioned;
      }
      var k := runs[run];
      if records[k].session.None? {
        if !admissible {
          return SessionRefused;
        }
        records := records[k := records[k].(session := Some(session))];
      } else if records[k].session.value != session {
        return OtherSession;
      }
      return Approved;
    }

    method Release(run: RunId)
      requires InRange(Value())
      modifies this
      ensures Value() == After(old(Value()), Event.Release(run))
    {
      if run in runs {
        records := records[runs[run] := records[runs[run]].(released := true)];
      }
      runs := runs - {run};
      released := released + {run};
    }

    /** Up to the run's lock. */
    method BeginTurn(task: TaskId, run: RunId, turn: nat, hash: Hash) returns (reply: Option<Reply>)
      requires InRange(Value()) && Enabled(Value(), Event.BeginTurn(task, run, turn, hash))
      modifies this
      ensures Value() == After(old(Value()), Event.BeginTurn(task, run, turn, hash))
      ensures reply.Some? ==> answers == old(answers) + [Answer(life, run, turn, reply.value)]
    {
      if run in released || run !in runs || records[runs[run]].session.None? {
        answers := answers + [Answer(life, run, turn, InvalidState)];
        return Some(InvalidState);
      }
      tasks := tasks[task := Waiting(runs[run], turn, hash)];
      return None;
    }

    /** From the lock to the policy: an answered turn is answered again, another begins deciding. */
    method EnterTurn(task: TaskId, consistent: bool) returns (reply: Option<Reply>)
      requires InRange(Value()) && Enabled(Value(), Event.EnterTurn(task, consistent))
      modifies this
      ensures Value() == After(old(Value()), Event.EnterTurn(task, consistent))
      ensures reply.Some? ==>
        answers == old(answers)
                   + [Answer(life, old(records[tasks[task].record].run), old(tasks[task].turn), reply.value)]
    {
      var t := tasks[task];
      var r := records[t.record];
      if t.turn in r.turns {
        tasks := tasks - {task};
        var given := if r.turns[t.turn].hash == t.hash then Stored(r.turns[t.turn].response) else Conflict;
        answers := answers + [Answer(life, r.run, t.turn, given)];
        return Some(given);
      }
      if !consistent {
        tasks := tasks - {task};
        answers := answers + [Answer(life, r.run, t.turn, ObservationRefused)];
        return Some(ObservationRefused);
      }
      records := records[t.record := r.(holder := Some(task))];
      tasks := tasks[task := Deciding(t.record, t.turn, t.hash)];
      return None;
    }

    /** From the decision to the answer: the run's flag is read once more, then the action is signed,
        stored and the lock released, with no suspension between. */
    method FinishTurn(task: TaskId, decided: Decided) returns (reply: Reply)
      requires InRange(Value()) && Enabled(Value(), Event.FinishTurn(task, decided))
      modifies this
      ensures Value() == After(old(Value()), Event.FinishTurn(task, decided))
      ensures answers == old(answers)
                         + [Answer(life, old(records[tasks[task].record].run), old(tasks[task].turn), reply)]
    {
      var t := tasks[task];
      var r := records[t.record];
      tasks := tasks - {task};
      if decided.Failing? || (decided.ToSign? && r.released) {
        reply := if decided.Failing? then NotSigned else InvalidState;
        records := records[t.record := r.(holder := None)];
      } else {
        if decided.ToSign? {
          signatures := signatures + [Signature(life, r.run, t.turn)];
        }
        reply := Stored(decided.response);
        var kept := StoredAnswer(t.hash, decided.response, decided.ToSign?);
        records := records[t.record := r.(turns := r.turns[t.turn := kept], holder := None)];
      }
      answers := answers + [Answer(life, r.run, t.turn, reply)];
    }

    /** The request is cancelled wherever it is suspended; nothing is stored. */
    method Cancel(task: TaskId)
      requires InRange(Value()) && task in tasks
      modifies this
      ensures Value() == After(old(Value()), Event.Cancel(task))
    {
      var t := tasks[task];
      tasks := tasks - {task};
      if t.Deciding? {
        records := records[t.record := records[t.record].(holder := None)];
      }
    }
  }

  // ---------------------------------------------------------------------------------------------
  // What each request does
  // ---------------------------------------------------------------------------------------------

  ghost predicate Knows(s: State, run: RunId) { run in s.runs && run !in s.released }

  /** A run is recorded exactly when it is new, neither known nor released, and this instance admits it at
      the address expected; its record says what it was first given. */
  lemma ProvisionDoes(s: State, run: RunId, fingerprint: nat, admissible: bool, addressed: bool)
    requires InRange(s)
    ensures var s', reply := After(s, Provision(run, fingerprint, admissible && addressed)),
                             ProvisionReplyOf(s, run, fingerprint, admissible, addressed);
      var isNew := run !in s.runs && run !in s.released;
      && (reply.ReleasedHere? <==> run in s.released)
      && (reply.OtherBody? <==> Knows(s, run) && s.records[s.runs[run]].fingerprint != fingerprint)
      && (reply.NotAdmitted? <==> isNew && !admissible)
      && (reply.OtherAddress? <==>
            !addressed
            && ((isNew && admissible) || (Knows(s, run) && s.records[s.runs[run]].fingerprint == fingerprint)))
      && (if isNew && admissible && addressed then
            && s'.runs.Keys == s.runs.Keys + {run} && s'.runs[run] == |s.records|
            && (forall other | other in s.runs :: s'.runs[other] == s.runs[other])
            && |s'.records| == |s.records| + 1 && s'.records[..|s.records|] == s.records
            && s'.records[|s.records|] == RunRecord(run, fingerprint, None, map[], None, false)
            && s' == s.(runs := s'.runs, records := s'.records)
          else s' == s)
  {
    assert (s.records + [RunRecord(run, fingerprint, None, map[], None, false)])[..|s.records|] == s.records;
  }

  /** A session is approved exactly when the run is known and has none yet, and is admissible. */
  lemma ApproveDoes(s: State, run: RunId, session: nat, admissible: bool)
    requires InRange(s)
    ensures var s', reply := After(s, Approve(run, session, admissible)), ApproveReplyOf(s, run, session, admissible);
      && (reply.NotProvisioned? <==> !Knows(s, run))
      && (Knows(s, run) ==>
            var approved := s.records[s.runs[run]].session;
            && (reply.SessionRefused? <==> approved.None? && !admissible)
            && (reply.OtherSession? <==> approved.Some? && approved.value != session)
            && (if approved.None? && admissible then
                  && |s'.records| == |s.records|
                  && s'.records[s.runs[run]] == s.records[s.runs[run]].(session := Some(session))
                  && (forall i | 0 <= i < |s.records| && i != s.runs[run] :: s'.records[i] == s.records[i])
                  && s' == s.(records := s'.records)
                else s' == s))
  {
  }

  ghost predicate Replies(s: State, s': State, run: RunId, turn: nat, reply: Reply) {
    s'.answers == s.answers + [Answer(s.life, run, turn, reply)]
  }

  /** A turn waits for its run's lock exactly when the run is known and has a session; nothing else about
      it is looked at yet. */
  lemma BeginDoes(s: State, task: TaskId, run: RunId, turn: nat, hash: Hash)
    requires InRange(s) && task !in s.tasks
    ensures var s' := After(s, BeginTurn(task, run, turn, hash));
      if Knows(s, run) && s.records[s.runs[run]].session.Some? then
        s' == s.(tasks := s.tasks[task := Waiting(s.runs[run], turn, hash)])
      else Replies(s, s', run, turn, InvalidState) && s' == s.(answers := s'.answers)
  {
  }

  /** Under the lock: a turn answered before is answered alike for the same observation and in conflict
      for another, an inconsistent one is refused, and any other begins deciding, holding the lock. */
  lemma EnterDoes(s: State, task: TaskId, consistent: bool)
    requires InRange(s) && Enabled(s, EnterTurn(task, consistent))
    ensures var s', t, r := After(s, EnterTurn(task, consistent)), s.tasks[task], s.records[s.tasks[task].record];
      if t.turn in r.turns || !consistent then
        && Replies(s, s', r.run, t.turn,
                   if t.turn !in r.turns then ObservationRefused
                   else if r.turns[t.turn].hash == t.hash then Stored(r.turns[t.turn].response) else Conflict)
        && s' == s.(answers := s'.answers, tasks := s.tasks - {task})
      else
        && s'.tasks == s.tasks[task := Deciding(t.record, t.turn, t.hash)]
        && s'.records[t.record] == r.(holder := Some(task))
        && |s'.records| == |s.records|
        && (forall i | 0 <= i < |s.records| && i != t.record :: s'.records[i] == s.records[i])
        && s' == s.(tasks := s'.tasks, records := s'.records)
  {
  }

  /** What a decision is answered with: its response, signed or without a signature, unless it fails or
      is to be signed for a run released meanwhile. */
  function ReplyTo(r: RunRecord, decided: Decided): Reply {
    match decided
    case ToSign(response) => if r.released then InvalidState else Stored(response)
    case WithoutSignature(response) => Stored(response)
    case Failing => NotSigned
  }

  /** The end of a turn: signed exactly when there is something to sign and the run was not released; what
      is answered as stored is remembered, with the observation it was decided for; the lock is free. */
  lemma FinishDoes(s: State, task: TaskId, decided: Decided)
    requires InRange(s) && Enabled(s, FinishTurn(task, decided))
    ensures var s', t, r := After(s, FinishTurn(task, decided)), s.tasks[task], s.records[s.tasks[task].record];
      var signs := decided.ToSign? && !r.released;
      && Replies(s, s', r.run, t.turn, ReplyTo(r, decided))
      && s'.signatures == s.signatures + (if signs then [Signature(s.life, r.run, t.turn)] else [])
      && |s'.records| == |s.records|
      && (forall i | 0 <= i < |s.records| && i != t.record :: s'.records[i] == s.records[i])
      && s'.records[t.record] == r.(holder := None,
                                    turns := if ReplyTo(r, decided).Stored?
                                             then r.turns[t.turn := StoredAnswer(t.hash, decided.response, signs)]
                                             else r.turns)
      && s' == s.(tasks := s.tasks - {task}, records := s'.records, signatures := s'.signatures, answers := s'.answers)
  {
    assert s.signatures + [] == s.signatures;
  }

  /** A cancelled request is answered nothing and remembers nothing; a lock it held is free. */
  lemma CancelDoes(s: State, task: TaskId)
    requires InRange(s) && task in s.tasks
    ensures var s', k := After(s, Cancel(task)), s.tasks[task].record;
      && |s'.records| == |s.records| && s' == s.(tasks := s.tasks - {task}, records := s'.records)
      && (forall i | 0 <= i < |s.records| && i != k :: s'.records[i] == s.records[i])
      && s'.records[k] == if s.tasks[task].Deciding? then s.records[k].(holder := None) else s.records[k]
  {
  }

  /** A released run is known no more, and turns in flight find its record marked. */
  lemma ReleaseDoes(s: State, run: RunId)
    requires InRange(s)
    ensures var s' := After(s, Release(run));
      && s'.released == s.released + {run} && s'.runs == s.runs - {run} && |s'.records| == |s.records|
      && (forall i | 0 <= i < |s.records| ::
            s'.records[i] == if run in s.runs && s.runs[run] == i then s.records[i].(released := true)
                             else s.records[i])
      && s' == s.(runs := s'.runs, released := s'.released, records := s'.records)
  {
  }

  /** A restarted process knows no run, no release, no turn and no request; what was signed and answered
      before it stays so. */
  lemma RestartDoes(s: State)
    requires InRange(s)
    ensures var s' := After(s, Restart);
      && s'.runs == map[] && s'.released == {} && s'.records == [] && s'.tasks == map[]
      && s'.life > s.life && s'.signatures == s.signatures && s'.answers == s.answers
  {
  }

  // ---------------------------------------------------------------------------------------------
  // What every interleaving keeps
  // ---------------------------------------------------------------------------------------------

  /** One record per run and life; the registry's are the runs not released. */
  ghost predicate Registered(s: State) {
    && InRange(s)
    && (forall run | run in s.runs ::
          s.records[s.runs[run]].run == run && !s.records[s.runs[run]].released && run !in s.released)
    && (forall i | 0 <= i < |s.records| ::
          if s.records[i].released then s.records[i].run in s.released
          else s.records[i].run in s.runs && s.runs[s.records[i].run] == i)
    && (forall i, j | 0 <= i < j < |s.records| :: s.records[i].run != s.records[j].run)
  }

  /** A lock is held by exactly the request deciding under it, for a turn not answered yet. */
  ghost predicate Locked(s: State)
    requires InRange(s)
  {
    && (forall t | t in s.tasks && s.tasks[t].Deciding? ::
          s.records[s.tasks[t].record].holder == Some(t) && s.tasks[t].turn !in s.records[s.tasks[t].record].turns)
    && (forall i | 0 <= i < |s.records| && s.records[i].holder.Some? ::
          s.records[i].holder.value in s.tasks && s.tasks[s.records[i].holder.value].Deciding?
          && s.tasks[s.records[i].holder.value].record == i)
  }

  ghost predicate HasStored(s: State, run: RunId, turn: nat) {
    exists i | 0 <= i < |s.records| :: s.records[i].run == run && turn in s.records[i].turns
  }

  ghost predicate StoredIs(s: State, run: RunId, turn: nat, response: nat) {
    exists i | 0 <= i < |s.records| ::
      s.records[i].run == run && turn in s.records[i].turns && s.records[i].turns[turn].response == response
  }

  /** Everything this life has signed and answered is in its records. */
  ghost predicate Remembered(s: State) {
    && (forall k | 0 <= k < |s.signatures| :: s.signatures[k].life <= s.life)
    && (forall k | 0 <= k < |s.answers| :: s.answers[k].life <= s.life)
    && (forall k | 0 <= k < |s.signatures| && s.signatures[k].life == s.life ::
          HasStored(s, s.signatures[k].run, s.signatures[k].turn))
    && (forall k | 0 <= k < |s.answers| && s.answers[k].life == s.life && s.answers[k].reply.Stored? ::
          StoredIs(s, s.answers[k].run, s.answers[k].turn, s.answers[k].reply.response))
  }

  /** No turn number of a run is signed twice in one life. */
  ghost predicate SignedOnce(s: State) {
    forall j, k | 0 <= j < k < |s.signatures| :: s.signatures[j] != s.signatures[k]
  }

  /** All the stored responses ever given for a turn number of a run in one life are one response. */
  ghost predicate AnsweredAlike(s: State) {
    forall j, k | 0 <= j < k < |s.answers| && s.answers[j].reply.Stored? && s.answers[k].reply.Stored? ::
      s.answers[j].life == s.answers[k].life && s.answers[j].run == s.answers[k].run
      && s.answers[j].turn == s.answers[k].turn
      ==> s.answers[j].reply == s.answers[k].reply
  }

  ghost predicate Inv(s: State) {
    Registered(s) && Locked(s) && Remembered(s) && SignedOnce(s) && AnsweredAlike(s)
  }

  /** Records are only added to, and what a record has answered stays. */
  ghost predicate Grows(s: State, s': State) {
    |s.records| <= |s'.records| && forall i | 0 <= i < |s.records| ::
      s'.records[i].run == s.records[i].run
      && s'.records[i].fingerprint == s.records[i].fingerprint
      && (s.records[i].session.Some? ==> s'.records[i].session == s.records[i].session)
      && (s.records[i].released ==> s'.records[i].released)
      && forall turn | turn in s.records[i].turns ::
           turn in s'.records[i].turns && s'.records[i].turns[turn] == s.records[i].turns[turn]
  }

  lemma StepGrows(s: State, e: Event)
    requires Inv(s) && Enabled(s, e) && !e.Restart?
    ensures Grows(s, After(s, e)) && After(s, e).life == s.life
  {
    if e.FinishTurn? {
      FinishGrows(s, e.task, e.decided);
    }
  }

  lemma FinishGrows(s: State, task: TaskId, decided: Decided)
    requires Inv(s) && Enabled(s, FinishTurn(task, decided))
    ensures Grows(s, AfterFinish(s, task, decided)) && AfterFinish(s, task, decided).life == s.life
  {
  }

  /** The same runs under the same records. */
  ghost predicate SameRegistry(s: State, s': State) {
    && s'.runs == s.runs && s'.released == s.released && |s'.records| == |s.records|
    && (forall i | 0 <= i < |s.records| ::
          s'.records[i].run == s.records[i].run && s'.records[i].released == s.records[i].released)
    && (forall t | t in s'.tasks :: s'.tasks[t].record < |s.records|)
  }

  lemma SameRegistryKeeps(s: State, s': State)
    requires Registered(s) && SameRegistry(s, s')
    ensures Registered(s')
  {
  }

  lemma OthersKeepRegistry(s: State, e: Event)
    requires Registered(s) && Enabled(s, e) && !e.Provision? && !e.Release? && !e.Restart?
    ensures SameRegistry(s, After(s, e))
  {
    if e.FinishTurn? {
      FinishKeepsRegistry(s, e.task, e.decided);
    }
    if e.EnterTurn? {
      EnterKeepsRegistry(s, e.task, e.consistent);
    }
  }

  lemma FinishKeepsRegistry(s: State, task: TaskId, decided: Decided)
    requires Registered(s) && task in s.tasks
    ensures SameRegistry(s, AfterFinish(s, task, decided))
  {
    OverKeepsRegistry(s, task);
    if !decided.Failing? {
      KeptKeepsRegistry(s, task, decided.response, decided.ToSign?);
    }
  }

  lemma OverKeepsRegistry(s: State, task: TaskId)
    requires Registered(s) && task in s.tasks
    ensures SameRegistry(s, Over(s, task))
  {
  }

  lemma KeptKeepsRegistry(s: State, task: TaskId, response: nat, signed: bool)
    requires Registered(s) && task in s.tasks
    ensures SameRegistry(s, Over(Kept(s, task, response, signed), task))
  {
  }

  lemma EnterKeepsRegistry(s: State, task: TaskId, consistent: bool)
    requires Registered(s) && task in s.tasks
    ensures SameRegistry(s, AfterEnter(s, task, consistent))
  {
  }

  lemma StepKeepsRegistered(s: State, e: Event)
    requires Inv(s) && Enabled(s, e)
    ensures Registered(After(s, e))
  {
    if e.Provision? {
      ProvisionKeepsRegistered(s, e.run, e.fingerprint, e.admissible);
    } else if e.Release? {
      ReleaseKeepsRegistered(s, e.run);
    } else if !e.Restart? {
      OthersKeepRegistry(s, e);
      SameRegistryKeeps(s, After(s, e));
    }
  }

  lemma ProvisionKeepsRegistered(s: State, run: RunId, fingerprint: nat, admissible: bool)
    requires Registered(s)
    ensures Registered(AfterProvision(s, run, fingerprint, admissible))
  {
  }

  lemma ReleaseKeepsRegistered(s: State, run: RunId)
    requires Registered(s)
    ensures Registered(AfterRelease(s, run))
  {
  }

  lemma OverKeepsLocked(s: State, task: TaskId)
    requires Registered(s) && Locked(s) && task in s.tasks
    ensures InRange(Over(s, task)) && Locked(Over(s, task))
  {
  }

  lemma EnterKeepsLocked(s: State, task: TaskId, consistent: bool)
    requires Registered(s) && Locked(s) && Enabled(s, EnterTurn(task, consistent))
    ensures InRange(AfterEnter(s, task, consistent)) && Locked(AfterEnter(s, task, consistent))
  {
    OverKeepsLocked(s, task);
  }

  /** Answering a turn and ending its task, at once. */
  lemma KeptKeepsLocked(s: State, task: TaskId, response: nat, signed: bool)
    requires Registered(s) && Locked(s) && task in s.tasks && s.tasks[task].Deciding?
    ensures InRange(Kept(s, task, response, signed))
    ensures InRange(Over(Kept(s, task, response, signed), task)) && Locked(Over(Kept(s, task, response, signed), task))
  {
  }

  lemma FinishKeepsLocked(s: State, task: TaskId, decided: Decided)
    requires Registered(s) && Locked(s) && Enabled(s, FinishTurn(task, decided))
    ensures InRange(AfterFinish(s, task, decided)) && Locked(AfterFinish(s, task, decided))
  {
    OverKeepsLocked(s, task);
    if decided.WithoutSignature? {
      KeptKeepsLocked(s, task, decided.response, false);
    }
    if decided.ToSign? {
      KeptKeepsLocked(s, task, decided.response, true);
    }
  }

  lemma ProvisionKeepsLocked(s: State, run: RunId, fingerprint: nat, admissible: bool)
    requires Registered(s) && Locked(s)
    ensures InRange(AfterProvision(s, run, fingerprint, admissible))
    ensures Locked(AfterProvision(s, run, fingerprint, admissible))
  {
  }

  lemma ApproveKeepsLocked(s: State, run: RunId, session: nat, admissible: bool)
    requires Registered(s) && Locked(s)
    ensures InRange(AfterApprove(s, run, session, admissible)) && Locked(AfterApprove(s, run, session, admissible))
  {
  }

  lemma ReleaseKeepsLocked(s: State, run: RunId)
    requires Registered(s) && Locked(s)
    ensures InRange(AfterRelease(s, run)) && Locked(AfterRelease(s, run))
  {
  }

  lemma BeginKeepsLocked(s: State, task: TaskId, run: RunId, turn: nat, hash: Hash)
    requires Registered(s) && Locked(s) && task !in s.tasks
    ensures InRange(AfterBegin(s, task, run, turn, hash)) && Locked(AfterBegin(s, task, run, turn, hash))
  {
  }

  lemma StepKeepsLocked(s: State, e: Event)
    requires Registered(s) && Locked(s) && Enabled(s, e)
    ensures InRange(After(s, e)) && Locked(After(s, e))
  {
    match e
    case Provision(run, fingerprint, admissible) => ProvisionKeepsLocked(s, run, fingerprint, admissible);
    case Approve(run, session, admissible) => ApproveKeepsLocked(s, run, session, admissible);
    case Release(run) => ReleaseKeepsLocked(s, run);
    case BeginTurn(task, run, turn, hash) => BeginKeepsLocked(s, task, run, turn, hash);
    case EnterTurn(task, consistent) => EnterKeepsLocked(s, task, consistent);
    case FinishTurn(task, decided) => FinishKeepsLocked(s, task, decided);
    case Cancel(task) => OverKeepsLocked(s, task);
    case Restart =>
  }

  /** What a step adds to the logs is in the records it leaves, and a signature it adds was for a
      turn no record had answered. */
  ghost predicate Logged(s: State, s': State) {
    && s'.life == s.life && Grows(s, s') && s.released <= s'.released
    && |s.signatures| <= |s'.signatures| <= |s.signatures| + 1
    && (forall k | 0 <= k < |s.signatures| :: s'.signatures[k] == s.signatures[k])
    && |s.answers| <= |s'.answers| <= |s.answers| + 1
    && (forall k | 0 <= k < |s.answers| :: s'.answers[k] == s.answers[k])
    && (forall k | |s.signatures| <= k < |s'.signatures| ::
          s'.signatures[k].life == s.life && s'.signatures[k].run !in s.released
          && HasStored(s', s'.signatures[k].run, s'.signatures[k].turn)
          && !HasStored(s, s'.signatures[k].run, s'.signatures[k].turn))
    && (forall k | |s.answers| <= k < |s'.answers| ::
          s'.answers[k].life == s.life
          && (s'.answers[k].reply.Stored? ==>
                StoredIs(s', s'.answers[k].run, s'.answers[k].turn, s'.answers[k].reply.response)))
  }

  lemma StepIsLogged(s: State, e: Event)
    requires Inv(s) && Enabled(s, e) && !e.Restart?
    ensures Logged(s, After(s, e))
  {
    StepGrows(s, e);
    if e.EnterTurn? {
      EnterIsLogged(s, e.task, e.consistent);
    }
    if e.FinishTurn? {
      FinishIsLogged(s, e.task, e.decided);
    }
  }

  lemma EnterIsLogged(s: State, task: TaskId, consistent: bool)
    requires Inv(s) && Enabled(s, EnterTurn(task, consistent)) && Grows(s, AfterEnter(s, task, consistent))
    ensures Logged(s, AfterEnter(s, task, consistent))
  {
    var t := s.tasks[task];
    assert AfterEnter(s, task, consistent).records[t.record].run == s.records[t.record].run;
  }

  lemma FinishIsLogged(s: State, task: TaskId, decided: Decided)
    requires Inv(s) && Enabled(s, FinishTurn(task, decided)) && Grows(s, AfterFinish(s, task, decided))
    ensures Logged(s, AfterFinish(s, task, decided))
  {
    var t := s.tasks[task];
    assert AfterFinish(s, task, decided).records[t.record].run == s.records[t.record].run;
  }

  lemma StoredIsUnique(s: State, run: RunId, turn: nat, r1: nat, r2: nat)
    requires Registered(s) && StoredIs(s, run, turn, r1) && StoredIs(s, run, turn, r2)
    ensures r1 == r2
  {
  }

  lemma GrowsRemembers(s: State, s': State, run: RunId, turn: nat, response: nat)
    requires Grows(s, s')
    ensures HasStored(s, run, turn) ==> HasStored(s', run, turn)
    ensures StoredIs(s, run, turn, response) ==> StoredIs(s', run, turn, response)
  {
  }

  lemma LoggedIsRemembered(s: State, s': State)
    requires Remembered(s) && Logged(s, s')
    ensures Remembered(s')
  {
    forall k | 0 <= k < |s'.signatures| && s'.signatures[k].life == s'.life
      ensures HasStored(s', s'.signatures[k].run, s'.signatures[k].turn)
    {
      if k < |s.signatures| {
        GrowsRemembers(s, s', s.signatures[k].run, s.signatures[k].turn, 0);
      }
    }
    forall k | 0 <= k < |s'.answers| && s'.answers[k].life == s'.life && s'.answers[k].reply.Stored?
      ensures StoredIs(s', s'.answers[k].run, s'.answers[k].turn, s'.answers[k].reply.response)
    {
      if k < |s.answers| {
        GrowsRemembers(s, s', s.answers[k].run, s.answers[k].turn, s.answers[k].reply.response);
      }
    }
  }

  lemma LoggedKeepsOnce(s: State, s': State)
    requires Inv(s) && Logged(s, s') && Registered(s') && Remembered(s')
    ensures SignedOnce(s') && AnsweredAlike(s')
  {
    forall j, k | 0 <= j < k < |s'.answers| && s'.answers[j].reply.Stored? && s'.answers[k].reply.Stored?
                  && s'.answers[j].life == s'.answers[k].life && s'.answers[j].run == s'.answers[k].run
                  && s'.answers[j].turn == s'.answers[k].turn
      ensures s'.answers[j].reply == s'.answers[k].reply
    {
      if k == |s.answers| {
        StoredIsUnique(s', s'.answers[j].run, s'.answers[j].turn,
                       s'.answers[j].reply.response, s'.answers[k].reply.response);
      }
    }
  }

  lemma StepKeepsInv(s: State, e: Event)
    requires Inv(s) && Enabled(s, e)
    ensures Inv(After(s, e))
  {
    StepKeepsRegistered(s, e);
    StepKeepsLocked(s, e);
    if !e.Restart? {
      StepIsLogged(s, e);
      LoggedIsRemembered(s, After(s, e));
      LoggedKeepsOnce(s, After(s, e));
    }
  }

  // ---------------------------------------------------------------------------------------------
  // Every interleaving
  // ---------------------------------------------------------------------------------------------

  ghost predicate Interleaving(ss: seq<State>, es: seq<Event>) {
    && |ss| == |es| + 1 && ss[0] == FRESH
    && forall i | 0 <= i < |es| :: InRange(ss[i]) && Enabled(ss[i], es[i]) && ss[i + 1] == After(ss[i], es[i])
  }

  lemma {:induction false} EveryInterleaving(ss: seq<State>, es: seq<Event>, n: nat)
    requires Interleaving(ss, es) && n <= |es|
    ensures Inv(ss[n])
  {
    if n > 0 {
      EveryInterleaving(ss, es, n - 1);
      StepKeepsInv(ss[n - 1], es[n - 1]);
    }
  }

  /** In one life of the process, however its turns, releases and cancellations interleave: no turn
      number is signed twice, and whoever asks for it is given one stored response or none. */
  lemma OneSignatureOneAnswer(ss: seq<State>, es: seq<Event>, n: nat)
    requires Interleaving(ss, es) && n <= |es|
    ensures forall j, k | 0 <= j < k < |ss[n].signatures| :: ss[n].signatures[j] != ss[n].signatures[k]
    ensures forall j, k | 0 <= j < k < |ss[n].answers|
                          && ss[n].answers[j].reply.Stored? && ss[n].answers[k].reply.Stored?
      && ss[n].answers[j].(reply := Conflict) == ss[n].answers[k].(reply := Conflict) ::
      ss[n].answers[j].reply.response == ss[n].answers[k].reply.response
  {
    EveryInterleaving(ss, es, n);
    var answers := ss[n].answers;
    forall j, k | 0 <= j < k < |answers| && answers[j].reply.Stored? && answers[k].reply.Stored?
                  && answers[j].(reply := Conflict) == answers[k].(reply := Conflict)
      ensures answers[j].reply.response == answers[k].reply.response
    {
      assert answers[j].life == answers[j].(reply := Conflict).life == answers[k].life;
      assert answers[j].run == answers[j].(reply := Conflict).run == answers[k].run;
      assert answers[j].turn == answers[j].(reply := Conflict).turn == answers[k].turn;
    }
  }

  lemma {:induction false} ChainGrows(ss: seq<State>, m: nat, n: nat, k: nat)
    requires m <= n < |ss| && Chain(ss, m, n) && k < |ss[m].records|
    ensures k < |ss[n].records| && ss[n].records[k].run == ss[m].records[k].run
    ensures ss[n].records[k].fingerprint == ss[m].records[k].fingerprint
    ensures ss[m].records[k].session.Some? ==> ss[n].records[k].session == ss[m].records[k].session
    decreases n
  {
    if m < n {
      ChainGrows(ss, m, n - 1, k);
      assert Logged(ss[n - 1], ss[n]);
    }
  }

  lemma RecordIsTheRuns(s: State, run: RunId, k: nat)
    requires Registered(s) && run in s.runs && k < |s.records| && s.records[k].run == run
    ensures s.runs[run] == k
  {
  }

  /** While a run stays known to one life of the process it answers as it did: provisioned again by the
      body it was first given and no other, and approved again for its first session and no other. */
  lemma FirstProvisioningStands(ss: seq<State>, es: seq<Event>, m: nat, n: nat,
                                run: RunId, fingerprint: nat, session: nat)
    requires Interleaving(ss, es) && m <= n <= |es| && ss[n].life == ss[m].life
    requires InRange(ss[m]) && InRange(ss[n]) && run in ss[m].runs && run in ss[n].runs
    ensures var first := ss[m].records[ss[m].runs[run]];
      && ProvisionReplyOf(ss[n], run, fingerprint, true, true)
         == (if fingerprint == first.fingerprint then Provisioned else OtherBody)
      && (first.session.Some? ==>
            ApproveReplyOf(ss[n], run, session, true)
            == if session == first.session.value then Approved else OtherSession)
  {
    var k := ss[m].runs[run];
    EveryInterleaving(ss, es, m);
    EveryInterleaving(ss, es, n);
    OneLifeIsLogged(ss, es, m, n);
    ChainGrows(ss, m, n, k);
    RecordIsTheRuns(ss[n], run, k);
  }

  /** Nothing is signed for a run from its release to the end of the process's life, and it cannot
      be provisioned again. */
  lemma NothingAfterRelease(ss: seq<State>, es: seq<Event>, m: nat, n: nat, run: RunId)
    requires Interleaving(ss, es) && m <= n <= |es| && run in ss[m].released && ss[n].life == ss[m].life
    ensures run in ss[n].released && run !in ss[n].runs
    ensures SignedSince(ss[m], ss[n], run)
  {
    OneLifeIsLogged(ss, es, m, n);
    ChainSince(ss, m, n, run);
    ReleasedIsNotRegistered(ss, es, n, run);
  }

  ghost predicate Chain(ss: seq<State>, m: nat, n: nat)
    requires m <= n < |ss|
  {
    forall i | m <= i < n :: Logged(ss[i], ss[i + 1])
  }

  lemma OneLifeIsLogged(ss: seq<State>, es: seq<Event>, m: nat, n: nat)
    requires Interleaving(ss, es) && m <= n <= |es| && ss[n].life == ss[m].life
    ensures Chain(ss, m, n)
  {
    forall i | m <= i < n
      ensures Logged(ss[i], ss[i + 1])
    {
      LivesGrow(ss, es, m, i);
      StepAt(ss, es, i);
      LivesGrow(ss, es, i + 1, n);
    }
  }

  lemma {:induction false} ChainSince(ss: seq<State>, m: nat, n: nat, run: RunId)
    requires m <= n < |ss| && Chain(ss, m, n) && run in ss[m].released
    ensures run in ss[n].released && SignedSince(ss[m], ss[n], run)
    decreases n
  {
    if m < n {
      ChainSince(ss, m, n - 1, run);
      LoggedSince(ss[m], ss[n - 1], ss[n], run);
    }
  }

  /** Every signature made between two states is for other runs than this one. */
  ghost predicate SignedSince(s: State, s': State, run: RunId) {
    && |s.signatures| <= |s'.signatures|
    && (forall k | 0 <= k < |s.signatures| :: s'.signatures[k] == s.signatures[k])
    && (forall k | |s.signatures| <= k < |s'.signatures| :: s'.signatures[k].run != run)
  }

  lemma LoggedSince(s: State, s1: State, s2: State, run: RunId)
    requires SignedSince(s, s1, run) && Logged(s1, s2) && run in s1.released
    ensures SignedSince(s, s2, run) && run in s2.released
  {
  }

  lemma ReleasedIsNotRegistered(ss: seq<State>, es: seq<Event>, n: nat, run: RunId)
    requires Interleaving(ss, es) && n <= |es|
    ensures run in ss[n].released ==> run !in ss[n].runs
  {
    EveryInterleaving(ss, es, n);
  }

  lemma StepAt(ss: seq<State>, es: seq<Event>, n: nat)
    requires Interleaving(ss, es) && n < |es|
    ensures if es[n].Restart? then ss[n + 1].life == ss[n].life + 1 else Logged(ss[n], ss[n + 1])
  {
    EveryInterleaving(ss, es, n);
    if !es[n].Restart? {
      StepIsLogged(ss[n], es[n]);
    }
  }

  lemma LivesGrow(ss: seq<State>, es: seq<Event>, m: nat, n: nat)
    requires Interleaving(ss, es) && m <= n <= |es|
    ensures ss[m].life <= ss[n].life
  {
    forall i | 0 <= i < |es|
      ensures LifeHolds(ss[i], ss[i + 1])
    {
      StepAt(ss, es, i);
    }
    NeverFalls(ss, m, n);
  }

  ghost predicate LifeHolds(s: State, s': State) { s.life <= s'.life }

  lemma {:induction false} NeverFalls(ss: seq<State>, m: nat, n: nat)
    requires m <= n < |ss| && forall i | 0 <= i < |ss| - 1 :: LifeHolds(ss[i], ss[i + 1])
    ensures ss[m].life <= ss[n].life
  {
    if m < n {
      NeverFalls(ss, m, n - 1);
      assert LifeHolds(ss[n - 1], ss[n]);
    }
  }

  /** The guarantee is the process's, not the run's: a restarted instance remembers no turn, and
      provisioned and approved again, signs the same one again. */
  lemma RestartSignsAgain(run: RunId, turn: nat, hash: Hash) returns (ss: seq<State>, es: seq<Event>)
    ensures Interleaving(ss, es)
    ensures ss[|es|].signatures == [Signature(0, run, turn), Signature(1, run, turn)]
  {
    var first := OneTurn(FRESH, run, turn, hash);
    var second := OneTurn(After(first[5], Restart), run, turn, hash);
    es := TurnEvents(run, turn, hash) + [Restart] + TurnEvents(run, turn, hash);
    ss := first + second;
    RestartJoins(first, second, TurnEvents(run, turn, hash));
  }

  /** A history of five steps, and one that goes on from its restart. */
  lemma RestartJoins(first: seq<State>, second: seq<State>, turn: seq<Event>)
    requires |first| == |second| == 6 && |turn| == 5 && first[0] == FRESH
    requires forall i | 0 <= i < 5 ::
             InRange(first[i]) && Enabled(first[i], turn[i]) && first[i + 1] == After(first[i], turn[i])
    requires forall i | 0 <= i < 5 ::
             InRange(second[i]) && Enabled(second[i], turn[i]) && second[i + 1] == After(second[i], turn[i])
    requires InRange(first[5]) && second[0] == After(first[5], Restart)
    ensures Interleaving(first + second, turn + [Restart] + turn)
  {
    var ss, es := first + second, turn + [Restart] + turn;
    forall i | 0 <= i < |es|
      ensures InRange(ss[i]) && Enabled(ss[i], es[i]) && ss[i + 1] == After(ss[i], es[i])
    {
      if i < 5 {
        assert ss[i] == first[i] && es[i] == turn[i] && ss[i + 1] == first[i + 1];
      } else if i == 5 {
        assert ss[i] == first[5] && es[i] == Restart && ss[i + 1] == second[0];
      } else {
        assert ss[i] == second[i - 6] && es[i] == turn[i - 6] && ss[i + 1] == second[i - 5];
      }
    }
  }

  function TurnEvents(run: RunId, turn: nat, hash: Hash): seq<Event> {
    [Provision(run, 0, true), Approve(run, 0, true), BeginTurn(0, run, turn, hash),
     EnterTurn(0, true), FinishTurn(0, ToSign(0))]
  }

  /** One whole turn of a run, on an instance that knows nothing. */
  lemma OneTurn(s: State, run: RunId, turn: nat, hash: Hash) returns (ss: seq<State>)
    requires s == FRESH.(life := s.life, signatures := s.signatures, answers := s.answers)
    ensures |ss| == 6 && ss[0] == s && ss[5].life == s.life
    ensures forall i | 0 <= i < 5 ::
      InRange(ss[i]) && Enabled(ss[i], TurnEvents(run, turn, hash)[i])
      && ss[i + 1] == After(ss[i], TurnEvents(run, turn, hash)[i])
    ensures InRange(ss[5]) && ss[5].signatures == s.signatures + [Signature(s.life, run, turn)]
  {
    var es := TurnEvents(run, turn, hash);
    var s1 := After(s, es[0]);
    var s2 := After(s1, es[1]);
    var s3 := After(s2, es[2]);
    var s4 := After(s3, es[3]);
    var s5 := After(s4, es[4]);
    ss := [s, s1, s2, s3, s4, s5];
  }
}
