/** The price of a model call and the guard that keeps a run's calls under two ceilings. */
module Budget {
  import opened Common

  // ---------------------------------------------------------------------------------------------
  // Prices. Rates are USD per million tokens, so a token at rate 1 costs one micro-dollar; every
  // amount is a whole number of micro-dollars.
  // ---------------------------------------------------------------------------------------------

  datatype Price = Price(input: real, output: real, write5m: real, write1h: real, read: real)
  {
    predicate Valid() { input >= 0.0 && output >= 0.0 && write5m >= 0.0 && write1h >= 0.0 && read >= 0.0 }

    function DearestInput(): real { MaxReal(MaxReal(input, write5m), MaxReal(write1h, read)) }
  }

  function MaxReal(a: real, b: real): real { if a >= b then a else b }

  /** What the provider reported; `written1h` is the part of `written` in the 1-hour cache. */
  datatype Usage = Usage(input: nat, output: nat, read: nat, written: nat, written1h: nat)

  function RoundUp(x: real): int { -((-x).Floor) }

  function MostBilled(p: Price, inputTokens: nat, maxTokens: nat): real {
    inputTokens as real * p.DearestInput() + maxTokens as real * p.output
  }

  function Bound(p: Price, inputTokens: nat, maxTokens: nat): int { RoundUp(MostBilled(p, inputTokens, maxTokens)) }

  function InputBill(p: Price, u: Usage): real {
    u.input as real * p.input + u.read as real * p.read
    + (u.written - u.written1h) as real * p.write5m + u.written1h as real * p.write1h
  }

  function Bill(p: Price, u: Usage): real { InputBill(p, u) + u.output as real * p.output }

  function Cost(p: Price, u: Usage): int { RoundUp(Bill(p, u)) }

  /** The usage is within what the call was admitted at. */
  predicate Fits(u: Usage, inputTokens: nat, maxTokens: nat) {
    u.input + u.read + u.written <= inputTokens && u.output <= maxTokens && u.written1h <= u.written
  }

  lemma Product(a: real, x: real, y: real)
    requires 0.0 <= a && 0.0 <= x <= y
    ensures 0.0 <= a * x <= a * y
  {
    assert a * (y - x) >= 0.0;
  }

  lemma AtOneRate(i: real, r: real, w: real, h: real, n: real, d: real)
    requires 0.0 <= d && i + r + w + h <= n
    ensures i * d + r * d + w * d + h * d <= n * d
  {
    assert (n - (i + r + w + h)) * d >= 0.0;
    assert (i + r + w + h) * d == i * d + r * d + w * d + h * d;
  }

  lemma RoundUpKeepsOrder(x: real, y: real)
    requires 0.0 <= x <= y
    ensures 0 <= RoundUp(x) <= RoundUp(y)
  {
  }

  lemma SumsKeepOrder(a: real, b: real, c: real, e: real, a': real, b': real, c': real, e': real, total: real)
    requires 0.0 <= a <= a' && 0.0 <= b <= b' && 0.0 <= c <= c' && 0.0 <= e <= e' && a' + b' + c' + e' <= total
    ensures 0.0 <= a + b + c + e <= total
  {
  }

  /** A bill, kind by kind, against the same tokens all at the dearest rate. */
  lemma BillAtDearest(p: Price, d: real, i: real, r: real, w: real, h: real, n: real)
    requires p.Valid() && p.input <= d && p.read <= d && p.write5m <= d && p.write1h <= d
    requires 0.0 <= i && 0.0 <= r && 0.0 <= w && 0.0 <= h && i + r + w + h <= n
    ensures 0.0 <= i * p.input + r * p.read + w * p.write5m + h * p.write1h <= n * d
  {
    Product(i, p.input, d);
    Product(r, p.read, d);
    Product(w, p.write5m, d);
    Product(h, p.write1h, d);
    AtOneRate(i, r, w, h, n, d);
    SumsKeepOrder(i * p.input, r * p.read, w * p.write5m, h * p.write1h, i * d, r * d, w * d, h * d, n * d);
  }

  lemma InputBillIsWithin(p: Price, u: Usage, inputTokens: nat, maxTokens: nat)
    requires p.Valid() && Fits(u, inputTokens, maxTokens)
    ensures 0.0 <= InputBill(p, u) <= inputTokens as real * p.DearestInput()
  {
    BillAtDearest(p, p.DearestInput(), u.input as real, u.read as real, (u.written - u.written1h) as real,
                  u.written1h as real, inputTokens as real);
  }

  lemma TwoParts(a: real, b: real, a': real, b': real)
    requires 0.0 <= a <= a' && 0.0 <= b <= b'
    ensures 0.0 <= a + b <= a' + b'
  {
  }

  lemma BillIsWithin(p: Price, u: Usage, inputTokens: nat, maxTokens: nat)
    requires p.Valid() && Fits(u, inputTokens, maxTokens)
    ensures 0.0 <= Bill(p, u) <= MostBilled(p, inputTokens, maxTokens)
  {
    InputBillIsWithin(p, u, inputTokens, maxTokens);
    Product(p.output, u.output as real, maxTokens as real);
    TwoParts(InputBill(p, u), u.output as real * p.output,
             inputTokens as real * p.DearestInput(), maxTokens as real * p.output);
  }

  /** The bound covers the cost of every split of the admitted tokens among the kinds billed. */
  lemma BoundCoversCost(p: Price, u: Usage, inputTokens: nat, maxTokens: nat)
    requires p.Valid() && Fits(u, inputTokens, maxTokens)
    ensures 0 <= Cost(p, u) <= Bound(p, inputTokens, maxTokens)
  {
    BillIsWithin(p, u, inputTokens, maxTokens);
    RoundUpKeepsOrder(Bill(p, u), MostBilled(p, inputTokens, maxTokens));
  }

  /** No smaller bound would do: some usage within the admission costs exactly this much. */
  lemma BoundIsLeast(p: Price, inputTokens: nat, maxTokens: nat)
    requires p.Valid()
    ensures exists u :: Fits(u, inputTokens, maxTokens) && Cost(p, u) == Bound(p, inputTokens, maxTokens)
  {
    var d := p.DearestInput();
    var u := if d == p.input then Usage(inputTokens, maxTokens, 0, 0, 0)
      else if d == p.read then Usage(0, maxTokens, inputTokens, 0, 0)
      else if d == p.write5m then Usage(0, maxTokens, 0, inputTokens, 0)
      else Usage(0, maxTokens, 0, inputTokens, inputTokens);
    assert Fits(u, inputTokens, maxTokens) && Cost(p, u) == Bound(p, inputTokens, maxTokens);
  }

  // ---------------------------------------------------------------------------------------------
  // The guard
  // ---------------------------------------------------------------------------------------------

  /** A run's two ceilings, its model's price if the table lists one, and whether it may do without. */
  datatype Limits = Limits(callCeiling: nat, spendCeiling: real, price: Option<Price>, allowUnknown: bool)
  {
    predicate Valid() { spendCeiling >= 0.0 && (price.Some? ==> price.value.Valid()) }
  }

  datatype Account = Account(calls: nat, spent: int)

  datatype RefusalReason = CallCeiling | UnknownPrice | SpendCeiling

  datatype Admission = Admitted(estimate: Option<int>) | Refused(reason: RefusalReason)

  function Verdict(l: Limits, a: Account, inputTokens: nat, maxTokens: nat): Admission {
    if a.calls + 1 > l.callCeiling then Refused(CallCeiling)
    else if l.price.None? then (if l.allowUnknown then Admitted(None) else Refused(UnknownPrice))
    else
      var estimate := Bound(l.price.value, inputTokens, maxTokens);
      if (a.spent + estimate) as real > l.spendCeiling then Refused(SpendCeiling) else Admitted(Some(estimate))
  }

  function Settled(l: Limits, a: Account, estimate: Option<int>, usage: Option<Usage>): Account {
    if l.price.None? then a
    else if usage.Some? then a.(spent := a.spent + Cost(l.price.value, usage.value))
    else a.(spent := a.spent + if estimate.Some? then estimate.value else 0)
  }

  class BudgetGuard {
    const limits: Limits
    var calls: nat
    var spent: int

    function Value(): Account
      reads this
    {
      Account(calls, spent)
    }

    constructor (limits: Limits)
      ensures this.limits == limits && Value() == Account(0, 0)
    {
      this.limits, calls, spent := limits, 0, 0;
    }

    /** `calls` grows by one when the answer is `Admitted`, and nothing changes otherwise. */
    method Admit(inputTokens: nat, maxTokens: nat) returns (r: Admission)
      requires 1 <= maxTokens
      modifies this`calls
      ensures r == Verdict(limits, old(Value()), inputTokens, maxTokens)
      ensures calls == old(calls) + if r.Admitted? then 1 else 0
    {
      if calls + 1 > limits.callCeiling {
        return Refused(CallCeiling);
      }
      if limits.price.None? {
        if !limits.allowUnknown {
          return Refused(UnknownPrice);
        }
        calls := calls + 1;
        return Admitted(None);
      }
      var estimate := Bound(limits.price.value, inputTokens, maxTokens);
      if (spent + estimate) as real > limits.spendCeiling {
        return Refused(SpendCeiling);
      }
      calls := calls + 1;
      return Admitted(Some(estimate));
    }

    /** `spent` grows by the reported cost, or by the estimate where the usage has none. */
    method Settle(estimate: Option<int>, usage: Option<Usage>) returns (reported: Option<int>)
      modifies this`spent
      ensures Value() == Settled(limits, old(Value()), estimate, usage)
      ensures reported ==
        if limits.price.Some? && usage.Some? then Some(Cost(limits.price.value, usage.value)) else None
    {
      if limits.price.None? {
        return None;
      }
      if usage.None? {
        spent := spent + if estimate.Some? then estimate.value else 0;
        return None;
      }
      var cost := Cost(limits.price.value, usage.value);
      spent := spent + cost;
      return Some(cost);
    }
  }

  // ---------------------------------------------------------------------------------------------
  // What is charged, and when a call is refused
  // ---------------------------------------------------------------------------------------------

  /** Nothing used costs nothing, and one more token of any kind adds exactly the rate of that kind. A token
      written for an hour also counts among those written. */
  lemma EachTokenAtItsRate(p: Price, u: Usage)
    requires u.written1h <= u.written
    ensures Bill(p, Usage(0, 0, 0, 0, 0)) == 0.0
    ensures Bill(p, u.(input := u.input + 1)) == Bill(p, u) + p.input
    ensures Bill(p, u.(output := u.output + 1)) == Bill(p, u) + p.output
    ensures Bill(p, u.(read := u.read + 1)) == Bill(p, u) + p.read
    ensures Bill(p, u.(written := u.written + 1)) == Bill(p, u) + p.write5m
    ensures Bill(p, u.(written := u.written + 1, written1h := u.written1h + 1)) == Bill(p, u) + p.write1h
  {
    InputRates(p, u);
    WriteRates(p, u);
    OneMore(u.output, p.output);
  }

  lemma OneMore(n: nat, rate: real)
    ensures (n + 1) as real * rate == n as real * rate + rate
  {
  }

  lemma InputRates(p: Price, u: Usage)
    requires u.written1h <= u.written
    ensures InputBill(p, u.(input := u.input + 1)) == InputBill(p, u) + p.input
    ensures InputBill(p, u.(read := u.read + 1)) == InputBill(p, u) + p.read
  {
    OneMore(u.input, p.input);
    OneMore(u.read, p.read);
  }

  lemma WriteRates(p: Price, u: Usage)
    requires u.written1h <= u.written
    ensures InputBill(p, u.(written := u.written + 1)) == InputBill(p, u) + p.write5m
    ensures InputBill(p, u.(written := u.written + 1, written1h := u.written1h + 1)) == InputBill(p, u) + p.write1h
  {
    OneMore(u.written - u.written1h, p.write5m);
    OneMore(u.written1h, p.write1h);
    assert (u.written + 1) - u.written1h == (u.written - u.written1h) + 1;
    assert (u.written + 1) - (u.written1h + 1) == u.written - u.written1h;
  }

  /** Rounded up: the least whole number of micro-dollars that covers the amount. */
  lemma RoundedUp(x: real, c: int)
    ensures RoundUp(x) <= c <==> x <= c as real
  {
    var f := (-x).Floor;
    assert f as real <= -x < (f + 1) as real;
  }

  /** What is charged for a usage is the least whole amount that covers its bill. */
  lemma CostCoversTheBill(p: Price, u: Usage, c: int)
    requires u.written1h <= u.written
    ensures Cost(p, u) <= c <==> Bill(p, u) <= c as real
  {
    RoundedUp(Bill(p, u), c);
  }

  /** The dearest rate a token of the prompt can be billed at. */
  predicate IsDearest(p: Price, rate: real) {
    && rate >= p.input && rate >= p.write5m && rate >= p.write1h && rate >= p.read
    && (rate == p.input || rate == p.write5m || rate == p.write1h || rate == p.read)
  }

  /** The estimate is the least amount that covers the whole prompt billed at that rate and the output limit. */
  lemma EstimateCovers(p: Price, inputTokens: nat, maxTokens: nat, rate: real, c: int)
    requires IsDearest(p, rate)
    ensures Bound(p, inputTokens, maxTokens) <= c
       <==> inputTokens as real * rate + maxTokens as real * p.output <= c as real
  {
    assert rate == p.DearestInput();
    RoundedUp(MostBilled(p, inputTokens, maxTokens), c);
  }

  /** The whole verdict: the call ceiling first, then a model without a price, then the spend with the
      estimate; an estimate only where there is a price. */
  lemma AdmittedIff(l: Limits, a: Account, inputTokens: nat, maxTokens: nat)
    ensures var v := Verdict(l, a, inputTokens, maxTokens);
      && (v == Refused(CallCeiling) <==> a.calls >= l.callCeiling)
      && (v == Refused(UnknownPrice) <==> a.calls < l.callCeiling && l.price.None? && !l.allowUnknown)
      && (v == Refused(SpendCeiling) <==>
            a.calls < l.callCeiling && l.price.Some?
            && (a.spent + Bound(l.price.value, inputTokens, maxTokens)) as real > l.spendCeiling)
      && (v.Admitted? ==>
            v.estimate == match l.price case None => None case Some(p) => Some(Bound(p, inputTokens, maxTokens)))
  {
  }

  /** What a settlement adds: nothing without a price, the reported cost where there is a usage, and the
      estimate where there is none. Calls are counted at admission. */
  lemma SettlementAdds(l: Limits, a: Account, estimate: Option<int>, usage: Option<Usage>)
    ensures var a' := Settled(l, a, estimate, usage);
      && a'.calls == a.calls
      && (l.price.None? ==> a'.spent == a.spent)
      && (l.price.Some? && usage.Some? ==> a'.spent - a.spent == Cost(l.price.value, usage.value))
      && (l.price.Some? && usage.None? && estimate.Some? ==> a'.spent - a.spent == estimate.value)
      && (l.price.Some? && usage.None? && estimate.None? ==> a'.spent == a.spent)
  {
  }

  // ---------------------------------------------------------------------------------------------
  // Whole runs: a run's calls, one at a time
  // ---------------------------------------------------------------------------------------------

  /** One call brought to the guard: the count it is priced at, its cap, and the usage reported if
      it is admitted and the provider reports one. */
  datatype Call = Call(inputTokens: nat, maxTokens: nat, usage: Option<Usage>)

  /** One call through the guard: admitted or refused, and settled once if admitted. */
  function After(l: Limits, a: Account, c: Call): Account {
    match Verdict(l, a, c.inputTokens, c.maxTokens)
    case Refused(_) => a
    case Admitted(estimate) => Settled(l, a.(calls := a.calls + 1), estimate, c.usage)
  }

  function AfterAll(l: Limits, calls: seq<Call>): Account {
    if calls == [] then Account(0, 0) else After(l, AfterAll(l, calls[..|calls| - 1]), calls[|calls| - 1])
  }

  function AdmittedCalls(l: Limits, calls: seq<Call>): seq<Call> {
    if calls == [] then []
    else
      var before, c := calls[..|calls| - 1], calls[|calls| - 1];
      AdmittedCalls(l, before)
      + if Verdict(l, AfterAll(l, before), c.inputTokens, c.maxTokens).Admitted? then [c] else []
  }

  /** What one admitted call is charged: its reported cost, or its estimate when none came back. */
  function Charged(p: Price, c: Call): int {
    if c.usage.Some? then Cost(p, c.usage.value) else Bound(p, c.inputTokens, c.maxTokens)
  }

  function Total(p: Price, calls: seq<Call>): int {
    if calls == [] then 0 else Total(p, calls[..|calls| - 1]) + Charged(p, calls[|calls| - 1])
  }

  /** The account is exactly the admitted calls: how many, and what each was charged. */
  lemma {:induction false} AccountIsWhatWasAdmitted(l: Limits, calls: seq<Call>)
    ensures AfterAll(l, calls).calls == |AdmittedCalls(l, calls)|
    ensures l.price.Some? ==> AfterAll(l, calls).spent == Total(l.price.value, AdmittedCalls(l, calls))
    ensures l.price.None? ==> AfterAll(l, calls).spent == 0
  {
    if calls != [] {
      var before, c := calls[..|calls| - 1], calls[|calls| - 1];
      var admitted := AdmittedCalls(l, before);
      AccountIsWhatWasAdmitted(l, before);
      if Verdict(l, AfterAll(l, before), c.inputTokens, c.maxTokens).Admitted? {
        assert AdmittedCalls(l, calls) == admitted + [c] && (admitted + [c])[..|admitted|] == admitted;
      } else {
        assert AdmittedCalls(l, calls) == admitted;
      }
    }
  }

  /** While every reported usage fits what its call was admitted at, neither ceiling is crossed. */
  lemma {:induction false} CeilingsHold(l: Limits, calls: seq<Call>)
    requires l.Valid()
    requires forall c | c in calls :: c.usage.Some? ==> Fits(c.usage.value, c.inputTokens, c.maxTokens)
    ensures AfterAll(l, calls).calls <= l.callCeiling
    ensures 0 <= AfterAll(l, calls).spent && AfterAll(l, calls).spent as real <= l.spendCeiling
  {
    if calls != [] {
      var before, c := calls[..|calls| - 1], calls[|calls| - 1];
      CeilingsHold(l, before);
      if l.price.Some? {
        if c.usage.Some? {
          BoundCoversCost(l.price.value, c.usage.value, c.inputTokens, c.maxTokens);
        } else {
          BoundCoversCost(l.price.value, Usage(0, 0, 0, 0, 0), c.inputTokens, c.maxTokens);
        }
      }
    }
  }

  // ---------------------------------------------------------------------------------------------
  // Calls that overlap
  // ---------------------------------------------------------------------------------------------

  /** The account, the calls admitted and not settled yet, and the bounds that were outstanding when
      the last of all was admitted. */
  datatype Book = Book(account: Account, open: seq<Call>, carried: int)

  datatype Step = AdmitCall(inputTokens: nat, maxTokens: nat) | SettleCall(k: nat, usage: Option<Usage>)

  function Outstanding(p: Price, open: seq<Call>): int {
    if open == [] then 0
    else
      var last := open[|open| - 1];
      Outstanding(p, open[..|open| - 1]) + Bound(p, last.inputTokens, last.maxTokens)
  }

  /** Any order of admissions and settlements, each reported usage within its admission. */
  predicate StepEnabled(b: Book, step: Step) {
    step.SettleCall? ==>
      && step.k < |b.open|
      && (step.usage.Some? ==> Fits(step.usage.value, b.open[step.k].inputTokens, b.open[step.k].maxTokens))
  }

  function Stepped(l: Limits, b: Book, step: Step): Book
    requires l.price.Some? && StepEnabled(b, step)
  {
    match step
    case AdmitCall(inputTokens, maxTokens) =>
      if Verdict(l, b.account, inputTokens, maxTokens).Refused? then b
      else Book(b.account.(calls := b.account.calls + 1), b.open + [Call(inputTokens, maxTokens, None)],
                Outstanding(l.price.value, b.open))
    case SettleCall(k, usage) =>
      var c := b.open[k];
      Book(Settled(l, b.account, Some(Bound(l.price.value, c.inputTokens, c.maxTokens)), usage),
           b.open[..k] + b.open[k + 1..], b.carried)
  }

  ghost predicate Interleaved(l: Limits, bs: seq<Book>, steps: seq<Step>) {
    && l.Valid() && l.price.Some? && |bs| == |steps| + 1 && bs[0] == Book(Account(0, 0), [], 0)
    && forall i | 0 <= i < |steps| :: StepEnabled(bs[i], steps[i]) && bs[i + 1] == Stepped(l, bs[i], steps[i])
  }

  lemma {:induction false} OutstandingWithout(p: Price, open: seq<Call>, k: nat)
    requires k < |open|
    ensures Outstanding(p, open[..k] + open[k + 1..])
         == Outstanding(p, open) - Bound(p, open[k].inputTokens, open[k].maxTokens)
  {
    var n := |open| - 1;
    if k < n {
      OutstandingWithout(p, open[..n], k);
      var without := open[..k] + open[k + 1..];
      assert without[..n - 1] == open[..n][..k] + open[..n][k + 1..] && without[n - 1] == open[n];
    } else {
      assert open[..k] + open[k + 1..] == open[..n];
    }
  }

  lemma {:induction false} OutstandingIsNotNegative(p: Price, open: seq<Call>)
    requires p.Valid()
    ensures Outstanding(p, open) >= 0
  {
    if open != [] {
      OutstandingIsNotNegative(p, open[..|open| - 1]);
      BoundCoversCost(p, Usage(0, 0, 0, 0, 0), open[|open| - 1].inputTokens, open[|open| - 1].maxTokens);
    }
  }

  lemma StepKeepsBook(l: Limits, b: Book, step: Step)
    requires l.Valid() && l.price.Some? && StepEnabled(b, step) && b.account.calls <= l.callCeiling
    requires (b.account.spent + Outstanding(l.price.value, b.open) - b.carried) as real <= l.spendCeiling
    ensures var b' := Stepped(l, b, step);
      && b'.account.calls <= l.callCeiling
      && (b'.account.spent + Outstanding(l.price.value, b'.open) - b'.carried) as real <= l.spendCeiling
  {
    match step
    case AdmitCall(inputTokens, maxTokens) => AdmissionKeepsBook(l, b, inputTokens, maxTokens);
    case SettleCall(k, usage) => SettlementKeepsBook(l, b, k, usage);
  }

  lemma AdmissionKeepsBook(l: Limits, b: Book, inputTokens: nat, maxTokens: nat)
    requires l.Valid() && l.price.Some? && b.account.calls <= l.callCeiling
    requires (b.account.spent + Outstanding(l.price.value, b.open) - b.carried) as real <= l.spendCeiling
    ensures var b' := Stepped(l, b, AdmitCall(inputTokens, maxTokens));
      && b'.account.calls <= l.callCeiling
      && (b'.account.spent + Outstanding(l.price.value, b'.open) - b'.carried) as real <= l.spendCeiling
  {
    var b' := Stepped(l, b, AdmitCall(inputTokens, maxTokens));
    if Verdict(l, b.account, inputTokens, maxTokens).Admitted? {
      assert b'.open[..|b.open|] == b.open;
      var bound := Bound(l.price.value, inputTokens, maxTokens);
      assert b'.account.spent + Outstanding(l.price.value, b'.open) - b'.carried == b.account.spent + bound;
    }
  }

  lemma SettlementKeepsBook(l: Limits, b: Book, k: nat, usage: Option<Usage>)
    requires l.Valid() && l.price.Some? && StepEnabled(b, SettleCall(k, usage)) && b.account.calls <= l.callCeiling
    requires (b.account.spent + Outstanding(l.price.value, b.open) - b.carried) as real <= l.spendCeiling
    ensures var b' := Stepped(l, b, SettleCall(k, usage));
      && b'.account.calls <= l.callCeiling
      && (b'.account.spent + Outstanding(l.price.value, b'.open) - b'.carried) as real <= l.spendCeiling
  {
    var p, c, b' := l.price.value, b.open[k], Stepped(l, b, SettleCall(k, usage));
    OutstandingWithout(p, b.open, k);
    BoundCoversCost(p, if usage.Some? then usage.value else Usage(0, 0, 0, 0, 0), c.inputTokens, c.maxTokens);
    assert b'.account.spent + Outstanding(p, b'.open) - b'.carried
        <= b.account.spent + Outstanding(p, b.open) - b.carried;
  }

  /** However admissions and settlements interleave: the call ceiling holds, and the spend is at most the
      spend ceiling and the bounds that were still outstanding when the last call was admitted. One call
      at a time leaves none. */
  lemma {:induction false} OverlapIsBounded(l: Limits, bs: seq<Book>, steps: seq<Step>, n: nat)
    requires Interleaved(l, bs, steps) && n <= |steps|
    ensures bs[n].account.calls <= l.callCeiling
    ensures (bs[n].account.spent + Outstanding(l.price.value, bs[n].open) - bs[n].carried) as real <= l.spendCeiling
    ensures (bs[n].account.spent - bs[n].carried) as real <= l.spendCeiling
  {
    if n > 0 {
      OverlapIsBounded(l, bs, steps, n - 1);
      StepKeepsBook(l, bs[n - 1], steps[n - 1]);
    }
    OutstandingIsNotNegative(l.price.value, bs[n].open);
  }

  /** And that much can be spent: two calls admitted before either is settled cross the ceiling by the
      first one's bound, though each fits what it was admitted at. */
  lemma OverlappingCallsOverspend()
    ensures exists l: Limits, first, second ::
      && l.Valid() && Verdict(l, Account(0, 0), 0, 1) == Admitted(first)
      && Verdict(l, Account(1, 0), 0, 1) == Admitted(second)
      && Settled(l, Settled(l, Account(2, 0), first, None), second, None).spent as real > l.spendCeiling
  {
    var l := Limits(2, 1.0, Some(Price(0.0, 1.0, 0.0, 0.0, 0.0)), false);
    assert Bound(l.price.value, 0, 1) == 1;
    assert Verdict(l, Account(0, 0), 0, 1) == Admitted(Some(1)) && Verdict(l, Account(1, 0), 0, 1) == Admitted(Some(1));
    assert Settled(l, Settled(l, Account(2, 0), Some(1), None), Some(1), None).spent as real > l.spendCeiling;
  }
}
