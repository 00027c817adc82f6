/** The two model clients, and why no exit of either settles an admitted call with the budget twice or
    not at all. */
module ModelClient {
  import opened Common
  import opened Budget

  // ---------------------------------------------------------------------------------------------
  // What a reply carries
  // ---------------------------------------------------------------------------------------------

  const MAX_TOKEN_COUNT := 10_000_000

  datatype Field = Absent | Number(n: int) | NotANumber

  predicate IsCount(f: Field) { f.Number? && 0 <= f.n <= MAX_TOKEN_COUNT }

  /** A count is a whole number up to ten million. */
  lemma CountsAre(f: Field)
    ensures IsCount(f) <==> match f
      case Number(n) => 0 <= n && n <= 10_000_000
      case _ => false
  {
  }

  function CountOr0(f: Field): nat
    requires IsCount(f) || f.Absent?
  {
    if f.Absent? then 0 else f.n
  }

  /** A cache count that is absent is of nothing. */
  predicate Says(f: Field, n: nat) { if n > 0 then f == Number(n) else f == Number(0) || f.Absent? }

  datatype RawUsage = RawUsage(input: Field, output: Field, read: Field, written: Field, written1h: Field)

  /** Refused unless every count is one and the 1-hour writes are at most all the writes, which the
      cost subtracts them from. */
  function ParseUsage(u: RawUsage): (r: Option<Usage>)
    ensures r.Some? ==> r.value.written1h <= r.value.written
    ensures r.Some? <==>
      IsCount(u.input) && IsCount(u.output)
      && (forall f | f in {u.read, u.written, u.written1h} :: f.Absent? || IsCount(f))
      && CountOr0(u.written1h) <= CountOr0(u.written)
    ensures r.Some? ==>
      && u.input == Number(r.value.input) && u.output == Number(r.value.output)
      && Says(u.read, r.value.read) && Says(u.written, r.value.written) && Says(u.written1h, r.value.written1h)
  {
    if !(forall f | f in {u.input, u.output, u.read, u.written, u.written1h} :: f.Absent? || IsCount(f)) then None
    else if u.input.Absent? || u.output.Absent? then None
    else if CountOr0(u.written1h) > CountOr0(u.written) then None
    else Some(Usage(u.input.n, u.output.n, CountOr0(u.read), CountOr0(u.written), CountOr0(u.written1h)))
  }

  datatype ApiError = TimedOut | ConnectionLost | Status(code: nat) | OtherError

  /** An answered call's text, sorted. */
  datatype Answer = Decided | Refusal | MaxTokens | Unparseable

  datatype Outcome =
    | Sorted(answer: Answer) | BudgetRefused
    | Timeout | ConnectionFailed | RateLimited | Rejected | ProviderFailure

  function SortError(e: ApiError): Outcome {
    match e
    case TimedOut => Timeout
    case ConnectionLost => ConnectionFailed
    case Status(code) => if code == 429 then RateLimited else if code >= 500 then ProviderFailure else Rejected
    case OtherError => ProviderFailure
  }

  /** Which error each outcome stands for. */
  lemma SortedErrors(e: ApiError)
    ensures SortError(e).Timeout? <==> e.TimedOut?
    ensures SortError(e).ConnectionFailed? <==> e.ConnectionLost?
    ensures SortError(e).RateLimited? <==> e == Status(429)
    ensures SortError(e).Rejected? <==> e.Status? && e.code < 500 && e.code != 429
    ensures SortError(e).ProviderFailure? <==> e.OtherError? || (e.Status? && e.code >= 500)
  {
  }

  /** The sorting of an answer's text, or an exception out of the sorting. */
  datatype Sorting = Sorts(answer: Answer) | SortingRaises

  /** What ends the wait early: the turn's own deadline, or a cancellation from outside. */
  datatype Interruption = Deadline | Cancelled

  datatype CountReply =
    | Counted(count: Field)
    | CountFailed(error: ApiError)
    | CountUndecodable
    | CountCut(cut: Interruption)

  datatype CallReply =
    | CallFailed(error: ApiError)
    | CallUndecodable
    | CallCut(cut: Interruption)
    | Answered(usage: RawUsage, wellFormed: bool, sorting: Sorting)

  /** How `decide` ends: a result, or an exception that propagates. */
  datatype Exit =
    | Returned(outcome: Outcome, estimate: Option<int>, reported: Option<int>, sent: bool)
    | Raised

  // ---------------------------------------------------------------------------------------------
  // The settlement of one admitted call
  // ---------------------------------------------------------------------------------------------

  class Charge {
    const guard: BudgetGuard
    const estimate: Option<int>
    var settled: bool
    var reported: Option<int>

    constructor (guard: BudgetGuard, estimate: Option<int>)
      ensures this.guard == guard && this.estimate == estimate && !settled && reported == None
    {
      this.guard, this.estimate, settled, reported := guard, estimate, false, None;
    }

    /** The first settlement counts; any later one repeats its answer. */
    method Settle(usage: Option<Usage>) returns (r: Option<int>)
      modifies this, guard`spent
      ensures settled && r == reported
      ensures old(settled) ==> reported == old(reported) && guard.Value() == old(guard.Value())
      ensures !old(settled) ==>
        guard.Value() == Settled(guard.limits, old(guard.Value()), estimate, usage)
        && reported == if guard.limits.price.Some? && usage.Some?
                       then Some(Cost(guard.limits.price.value, usage.value)) else None
    {
      if !settled {
        settled := true;
        reported := guard.Settle(estimate, usage);
      }
      return reported;
    }
  }

  /** The usage a reply settles its call with: only a well-formed answer has any. */
  function UsageOf(reply: CallReply): Option<Usage> {
    if reply.Answered? && reply.wellFormed then ParseUsage(reply.usage) else None
  }

  /** A failed, cut, undecodable or malformed exchange carries no usage, and an answer its own. */
  lemma CarriesUsage(reply: CallReply)
    ensures match reply
      case Answered(raw, wellFormed, _) => UsageOf(reply) == (if wellFormed then ParseUsage(raw) else None)
      case _ => UsageOf(reply).None?
  {
  }

  /** What an exchange with the provider comes to, against the guard's account: one call, settled by
      what came back, or none when its tokens could not be counted. */
  function Exchanged(l: Limits, a: Account, count: CountReply, maxTokens: nat, reply: CallReply): Account {
    if count.Counted? && IsCount(count.count) then After(l, a, Call(count.count.n, maxTokens, UsageOf(reply))) else a
  }

  predicate NothingSent(exit: Exit, outcome: Outcome) { exit == Returned(outcome, None, None, false) }

  /** How an admitted call ends, by what came back: only a well-formed answer's cost is reported. */
  ghost predicate EndsAs(l: Limits, estimate: Option<int>, reply: CallReply, exit: Exit) {
    match reply
    case CallCut(cut) => if cut.Deadline? then exit == Returned(Timeout, estimate, None, true) else exit.Raised?
    case CallFailed(error) => exit == Returned(SortError(error), estimate, None, true)
    case CallUndecodable => exit == Returned(ProviderFailure, estimate, None, true)
    case Answered(raw, wellFormed, sorting) =>
      if !wellFormed || ParseUsage(raw).None? then exit == Returned(ProviderFailure, estimate, None, true)
      else match sorting
        case SortingRaises => exit.Raised?
        case Sorts(answer) => ReportsCost(l, estimate, ParseUsage(raw).value, answer, exit)
  }

  ghost predicate ReportsCost(l: Limits, estimate: Option<int>, usage: Usage, answer: Answer, exit: Exit) {
    && exit.Returned? && exit.outcome == Sorted(answer) && exit.estimate == estimate && exit.sent
    && exit.reported == match l.price case None => None case Some(p) => Some(Cost(p, usage))
  }

  class AnthropicModelClient {
    const guard: BudgetGuard
    const maxTokens: nat

    constructor (guard: BudgetGuard, maxTokens: nat)
      ensures this.guard == guard && this.maxTokens == maxTokens
    {
      this.guard, this.maxTokens := guard, maxTokens;
    }

    /** `count` and `reply` are what the two endpoints, the deadline and the caller do in turn. */
    method Decide(count: CountReply, reply: CallReply) returns (exit: Exit)
      requires 1 <= maxTokens
      modifies guard
      ensures guard.Value() == Exchanged(guard.limits, old(guard.Value()), count, maxTokens, reply)
      ensures exit.Raised? ==> (count.CountCut? && count.cut.Cancelled?) || (reply.CallCut? && reply.cut.Cancelled?)
                               || (reply.Answered? && reply.sorting.SortingRaises?)
      ensures exit.Returned? && exit.outcome.BudgetRefused? ==> !exit.sent && guard.Value() == old(guard.Value())
      ensures exit.Returned? ==> (exit.sent <==> guard.calls == old(guard.calls) + 1)
      ensures exit.Returned? && exit.reported.Some? ==> guard.spent == old(guard.spent) + exit.reported.value
      ensures exit.Returned? && exit.sent && exit.reported.None? && exit.estimate.Some? ==>
        guard.spent == old(guard.spent) + exit.estimate.value
      ensures match count
        case CountCut(cut) => if cut.Deadline? then NothingSent(exit, Timeout) else exit.Raised?
        case CountFailed(error) => NothingSent(exit, SortError(error))
        case CountUndecodable => NothingSent(exit, ProviderFailure)
        case Counted(field) =>
          if !IsCount(field) then NothingSent(exit, ProviderFailure)
          else match Verdict(guard.limits, old(guard.Value()), field.n, maxTokens)
            case Refused(_) => NothingSent(exit, BudgetRefused)
            case Admitted(estimate) => EndsAs(guard.limits, estimate, reply, exit)
    {
      match count {
        case CountCut(Deadline) => return Returned(Timeout, None, None, false);
        case CountCut(Cancelled) => return Raised;
        case CountFailed(error) => return Returned(SortError(error), None, None, false);
        case CountUndecodable => return Returned(ProviderFailure, None, None, false);
        case Counted(field) =>
          if !IsCount(field) {
            return Returned(ProviderFailure, None, None, false);
          }
          var admission := guard.Admit(field.n, maxTokens);
          if admission.Refused? {
            return Returned(BudgetRefused, None, None, false);
          }
          var charge := new Charge(guard, admission.estimate);
          exit := Sent(charge, reply);
          if exit.Raised? {
            // Any exception out of the call settles it, then propagates; a deadline's ends in a result.
            var _ := charge.Settle(None);
            if reply.CallCut? && reply.cut.Deadline? {
              return Returned(Timeout, charge.estimate, None, true);
            }
          }
      }
    }

    /** An admitted call, up to its one settlement: a body is refused, if it is, before its usage counts. */
    method Sent(charge: Charge, reply: CallReply) returns (exit: Exit)
      requires charge.guard == guard && !charge.settled
      modifies charge, guard`spent
      ensures exit.Raised?
         <==> reply.CallCut? || (reply.Answered? && UsageOf(reply).Some? && reply.sorting.SortingRaises?)
      ensures reply.CallCut? ==> !charge.settled && guard.Value() == old(guard.Value())
      ensures !reply.CallCut? ==>
        charge.settled && guard.Value() == Settled(guard.limits, old(guard.Value()), charge.estimate, UsageOf(reply))
      ensures exit.Returned? ==>
        !exit.outcome.BudgetRefused? && exit.sent
        && exit.estimate == charge.estimate && exit.reported == charge.reported
      ensures charge.reported ==
        if !reply.CallCut? && guard.limits.price.Some? && UsageOf(reply).Some?
        then Some(Cost(guard.limits.price.value, UsageOf(reply).value))
        else if reply.CallCut? then old(charge.reported) else None
      ensures !reply.CallCut? ==> EndsAs(guard.limits, charge.estimate, reply, exit)
    {
      match reply {
        case CallCut(_) => return Raised;
        case CallFailed(error) =>
          var reported := charge.Settle(None);
          return Returned(SortError(error), charge.estimate, reported, true);
        case CallUndecodable =>
          var reported := charge.Settle(None);
          return Returned(ProviderFailure, charge.estimate, reported, true);
        case Answered(raw, wellFormed, sorting) =>
          var usage := ParseUsage(raw);
          if usage.None? || !wellFormed {
            var reported := charge.Settle(None);
            return Returned(ProviderFailure, charge.estimate, reported, true);
          }
          var reported := charge.Settle(usage);
          if sorting.SortingRaises? {
            return Raised;
          }
          return Returned(Sorted(sorting.answer), charge.estimate, reported, true);
      }
    }
  }

  // ---------------------------------------------------------------------------------------------
  // The scripted client
  // ---------------------------------------------------------------------------------------------

  datatype EntryUsage = EntryUsage(input: nat, output: nat, read: nat, written: nat)
  {
    function PromptTokens(): nat { input + read + written }

    function AsUsage(): Usage { Usage(input, output, read, written, 0) }
  }

  /** Exactly one kind each; an answer has placeholders the observation may not fill. */
  datatype Entry =
    | CannedAnswer(usage: EntryUsage, fills: bool, sorting: Sorting)
    | CannedText(usage: EntryUsage, sorting: Sorting)
    | CannedFailure(failure: Outcome, priced: Option<EntryUsage>, inputTokens: nat)

  function EntryCount(e: Entry): nat {
    match e
    case CannedAnswer(usage, _, _) => usage.PromptTokens()
    case CannedText(usage, _) => usage.PromptTokens()
    case CannedFailure(_, priced, inputTokens) => if priced.Some? then priced.value.PromptTokens() else inputTokens
  }

  /** What an entry played to its end, or cut short, settles its call with. */
  function EntryUsageOf(e: Entry, cut: Option<Interruption>): Option<Usage> {
    if cut.Some? then None
    else match e
      case CannedAnswer(usage, fills, _) => if fills then Some(usage.AsUsage()) else None
      case CannedText(usage, _) => Some(usage.AsUsage())
      case CannedFailure(_, _, _) => None
  }

  /** How an entry ends that nothing cuts short. */
  ghost predicate PlaysAs(l: Limits, estimate: Option<int>, e: Entry, exit: Exit) {
    match e
    case CannedFailure(failure, _, _) => exit == Returned(failure, estimate, None, true)
    case CannedAnswer(usage, fills, sorting) =>
      if !fills then exit == Returned(ProviderFailure, estimate, None, true)
      else AnswersAs(l, estimate, usage, sorting, exit)
    case CannedText(usage, sorting) => AnswersAs(l, estimate, usage, sorting, exit)
  }

  ghost predicate AnswersAs(l: Limits, estimate: Option<int>, usage: EntryUsage, sorting: Sorting, exit: Exit) {
    match sorting
    case SortingRaises => exit.Raised?
    case Sorts(answer) =>
      ReportsCost(l, estimate, Usage(usage.input, usage.output, usage.read, usage.written, 0), answer, exit)
  }

  /** An entry settles its call with its own usage, nothing of it in the 1-hour cache, unless it is cut, is a
      failure, or is an answer the observation does not fill. */
  lemma EntryCarriesUsage(e: Entry, cut: Option<Interruption>)
    ensures match EntryUsageOf(e, cut)
      case None => cut.Some? || e.CannedFailure? || (e.CannedAnswer? && !e.fills)
      case Some(u) =>
        && cut.None? && !e.CannedFailure? && (e.CannedAnswer? ==> e.fills)
        && u == Usage(e.usage.input, e.usage.output, e.usage.read, e.usage.written, 0)
  {
  }

  /** The prompt an entry is counted at: all its input, read and written tokens. */
  lemma CountedPrompt(e: Entry)
    ensures match e
      case CannedAnswer(u, _, _) => EntryCount(e) == u.input + u.read + u.written
      case CannedText(u, _) => EntryCount(e) == u.input + u.read + u.written
      case CannedFailure(_, priced, tokens) =>
        EntryCount(e) == match priced case None => tokens case Some(u) => u.input + u.read + u.written
  {
  }

  class FixtureModelClient {
    const entries: seq<Entry>
    const guard: BudgetGuard
    const maxTokens: nat
    var next: nat

    constructor (entries: seq<Entry>, guard: BudgetGuard, maxTokens: nat)
      ensures this.entries == entries && this.guard == guard && this.maxTokens == maxTokens && next == 0
    {
      this.entries, this.guard, this.maxTokens, next := entries, guard, maxTokens, 0;
    }

    /** The script's next entry, through the guard; an exhausted script sends nothing. `cut` is what
        ends the entry's delay early, the client's own timeout being a deadline too. */
    method Decide(cut: Option<Interruption>) returns (exit: Exit)
      requires 1 <= maxTokens
      modifies this`next, guard
      ensures next == old(next) + if old(next) < |entries| then 1 else 0
      ensures guard.Value() ==
        if old(next) < |entries|
        then After(guard.limits, old(guard.Value()),
                   Call(EntryCount(entries[old(next)]), maxTokens, EntryUsageOf(entries[old(next)], cut)))
        else old(guard.Value())
      ensures exit.Returned? ==> (exit.sent <==> guard.calls == old(guard.calls) + 1)
      ensures exit.Returned? && exit.reported.Some? ==> guard.spent == old(guard.spent) + exit.reported.value
      ensures exit.Returned? && exit.sent && exit.reported.None? && exit.estimate.Some? ==>
        guard.spent == old(guard.spent) + exit.estimate.value
      ensures if old(next) >= |entries| then NothingSent(exit, ProviderFailure)
        else match Verdict(guard.limits, old(guard.Value()), EntryCount(entries[old(next)]), maxTokens)
          case Refused(_) => NothingSent(exit, BudgetRefused)
          case Admitted(estimate) =>
            if cut.None? then PlaysAs(guard.limits, estimate, entries[old(next)], exit)
            else if cut.value.Deadline? then exit == Returned(Timeout, estimate, None, true) else exit.Raised?
    {
      if next >= |entries| {
        return Returned(ProviderFailure, None, None, false);
      }
      var entry := entries[next];
      next := next + 1;
      var admission := guard.Admit(EntryCount(entry), maxTokens);
      if admission.Refused? {
        return Returned(BudgetRefused, None, None, false);
      }
      var estimate := admission.estimate;
      if cut.Some? {
        var _ := guard.Settle(estimate, None);
        return if cut.value.Deadline? then Returned(Timeout, estimate, None, true) else Raised;
      }
      exit := Play(entry, estimate);
    }

    method Play(e: Entry, estimate: Option<int>) returns (exit: Exit)
      modifies guard`spent
      ensures guard.Value() == Settled(guard.limits, old(guard.Value()), estimate, EntryUsageOf(e, None))
      ensures exit.Returned? ==> exit.sent && exit.estimate == estimate
      ensures exit.Returned? && exit.reported.Some? ==>
        guard.spent == old(guard.spent) + exit.reported.value && guard.limits.price.Some? && EntryUsageOf(e, None).Some?
      ensures exit.Returned? && exit.reported.None? && exit.estimate.Some? && guard.limits.price.Some? ==>
        guard.spent == old(guard.spent) + exit.estimate.value
      ensures exit.Raised? ==> !e.CannedFailure? && e.sorting.SortingRaises?
      ensures PlaysAs(guard.limits, estimate, e, exit)
    {
      if e.CannedFailure? {
        var _ := guard.Settle(estimate, None);
        return Returned(e.failure, estimate, None, true);
      }
      if e.CannedAnswer? && !e.fills {
        var _ := guard.Settle(estimate, None);
        return Returned(ProviderFailure, estimate, None, true);
      }
      var reported := guard.Settle(estimate, Some(e.usage.AsUsage()));
      if e.sorting.SortingRaises? {
        return Raised;
      }
      return Returned(Sorted(e.sorting.answer), estimate, reported, true);
    }
  }

  // ---------------------------------------------------------------------------------------------
  // A run's calls, whatever ended each
  // ---------------------------------------------------------------------------------------------

  datatype Attempt = Attempt(count: CountReply, reply: CallReply)

  /** The calls a run's attempts bring to the guard, in order. */
  function CallsOf(attempts: seq<Attempt>, maxTokens: nat): seq<Call> {
    if attempts == [] then []
    else
      var last := attempts[|attempts| - 1];
      CallsOf(attempts[..|attempts| - 1], maxTokens)
      + if last.count.Counted? && IsCount(last.count.count)
        then [Call(last.count.count.n, maxTokens, UsageOf(last.reply))] else []
  }

  /** The account after a run's attempts, each exactly as `Decide` leaves it. */
  function AfterAttempts(l: Limits, attempts: seq<Attempt>, maxTokens: nat): Account {
    if attempts == [] then Account(0, 0)
    else
      var last := attempts[|attempts| - 1];
      Exchanged(l, AfterAttempts(l, attempts[..|attempts| - 1], maxTokens), last.count, maxTokens, last.reply)
  }

  /** Over any attempts, ended anyhow: the account is the sum over the admitted calls of what each
      reported, or its estimate, and no ceiling is crossed while the provider reports usage within
      what it was sent. */
  lemma {:induction false} EveryRunSettlesEachCallOnce(l: Limits, attempts: seq<Attempt>, maxTokens: nat)
    ensures AfterAttempts(l, attempts, maxTokens) == AfterAll(l, CallsOf(attempts, maxTokens))
    ensures AfterAttempts(l, attempts, maxTokens).calls == |AdmittedCalls(l, CallsOf(attempts, maxTokens))|
    ensures l.price.Some? ==>
      AfterAttempts(l, attempts, maxTokens).spent
      == Total(l.price.value, AdmittedCalls(l, CallsOf(attempts, maxTokens)))
    ensures l.Valid()
            && (forall c | c in CallsOf(attempts, maxTokens) ::
                  c.usage.Some? ==> Fits(c.usage.value, c.inputTokens, maxTokens)) ==>
      AfterAttempts(l, attempts, maxTokens).spent as real <= l.spendCeiling
  {
    var calls := CallsOf(attempts, maxTokens);
    if attempts != [] {
      var before, last := attempts[..|attempts| - 1], attempts[|attempts| - 1];
      EveryRunSettlesEachCallOnce(l, before, maxTokens);
      var earlier := CallsOf(before, maxTokens);
      if last.count.Counted? && IsCount(last.count.count) {
        var call := Call(last.count.count.n, maxTokens, UsageOf(last.reply));
        assert calls == earlier + [call] && (earlier + [call])[..|earlier|] == earlier;
      } else {
        assert calls == earlier;
      }
    }
    AccountIsWhatWasAdmitted(l, calls);
    CapsAreTheRuns(attempts, maxTokens);
    if l.Valid() && forall c | c in calls :: c.usage.Some? ==> Fits(c.usage.value, c.inputTokens, maxTokens) {
      CeilingsHold(l, calls);
    }
  }

  lemma {:induction false} CapsAreTheRuns(attempts: seq<Attempt>, maxTokens: nat)
    ensures forall c | c in CallsOf(attempts, maxTokens) :: c.maxTokens == maxTokens
  {
    if attempts != [] {
      CapsAreTheRuns(attempts[..|attempts| - 1], maxTokens);
    }
  }

  /** The calls a script brings to the guard in its first `n` turns, an exhausted one none. `cuts` is
      what ends each turn's delay early. */
  function PlayedCalls(entries: seq<Entry>, cuts: seq<Option<Interruption>>, maxTokens: nat, n: nat): seq<Call>
    requires n <= |cuts|
  {
    if n == 0 then []
    else
      PlayedCalls(entries, cuts, maxTokens, n - 1)
      + if n <= |entries|
        then [Call(EntryCount(entries[n - 1]), maxTokens, EntryUsageOf(entries[n - 1], cuts[n - 1]))] else []
  }

  /** The account after those turns, each exactly as the scripted `Decide` leaves it. */
  function AfterPlays(l: Limits, entries: seq<Entry>, cuts: seq<Option<Interruption>>, maxTokens: nat, n: nat): Account
    requires n <= |cuts|
  {
    if n == 0 then Account(0, 0)
    else
      var before := AfterPlays(l, entries, cuts, maxTokens, n - 1);
      if n <= |entries|
      then After(l, before, Call(EntryCount(entries[n - 1]), maxTokens, EntryUsageOf(entries[n - 1], cuts[n - 1])))
      else before
  }

  /** The same of a whole script, however its turns end: one settlement for each admitted entry. */
  lemma {:induction false} EveryScriptSettlesEachCallOnce(l: Limits, entries: seq<Entry>,
                                                         cuts: seq<Option<Interruption>>, maxTokens: nat, n: nat)
    requires n <= |cuts|
    ensures var calls := PlayedCalls(entries, cuts, maxTokens, n);
      && AfterPlays(l, entries, cuts, maxTokens, n) == AfterAll(l, calls)
      && AfterPlays(l, entries, cuts, maxTokens, n).calls == |AdmittedCalls(l, calls)|
      && (l.price.Some? ==>
            AfterPlays(l, entries, cuts, maxTokens, n).spent == Total(l.price.value, AdmittedCalls(l, calls)))
  {
    var calls := PlayedCalls(entries, cuts, maxTokens, n);
    if n > 0 {
      EveryScriptSettlesEachCallOnce(l, entries, cuts, maxTokens, n - 1);
      var earlier := PlayedCalls(entries, cuts, maxTokens, n - 1);
      if n <= |entries| {
        var c := Call(EntryCount(entries[n - 1]), maxTokens, EntryUsageOf(entries[n - 1], cuts[n - 1]));
        assert calls == earlier + [c] && calls[..|calls| - 1] == earlier;
        assert AfterAll(l, calls) == After(l, AfterAll(l, earlier), c);
      } else {
        assert calls == earlier;
      }
    }
    AccountIsWhatWasAdmitted(l, calls);
  }
}
