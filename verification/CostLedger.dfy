/**
 * The daily spend ledger of one stage. Amounts are integer micro-dollars (the table stores
 * six decimals); a date is a day number, read from the clock at each operation.
 */
module CostLedger {
  import opened Common

  type Ledger = map<nat, nat>

  function Spent(l: Ledger, date: nat): nat {
    if date in l then l[date] else 0
  }

  function Add(l: Ledger, date: nat, amount: nat): Ledger {
    l[date := Spent(l, date) + amount]
  }

  datatype Error = NegativeAmount | BudgetCapExceeded | CallFailed | LedgerFailed
  datatype Outcome = Ok | Failed(error: Error)

  /** How a ledger write ends; `Lost` took effect though the caller saw an error. */
  datatype Write = Fails | Lost | Done

  /** What the budget check lets pass. */
  predicate Admits(cap: int, spent: nat, estimate: int) {
    cap <= 0 || (estimate >= 0 && spent + estimate <= cap)
  }

  class CostRecords {
    var spentUsd: Ledger
    var callCount: Ledger

    constructor ()
      ensures spentUsd == map[] && callCount == map[]
    {
      spentUsd, callCount := map[], map[];
    }

    /**
     * The budget check: a cap of zero or less switches it off. The read is not asked to be
     * consistent: `missed` is what it does not show yet of the day's spend.
     */
    method Assert(today: nat, estimate: int, cap: int, readFails: bool, missed: nat) returns (r: Outcome)
      requires missed <= Spent(spentUsd, today)
      ensures r == Ok <==>
                cap <= 0 || (!readFails && estimate >= 0
                             && (if today in spentUsd then spentUsd[today] else 0) - missed + estimate <= cap)
      ensures r == Failed(NegativeAmount) <==> cap > 0 && estimate < 0
      ensures r == Failed(LedgerFailed) <==> cap > 0 && estimate >= 0 && readFails
      ensures r != Ok && estimate >= 0 && !readFails ==> r == Failed(BudgetCapExceeded)
    {
      if cap <= 0 {
        return Ok;
      }
      if estimate < 0 {
        return Failed(NegativeAmount);
      }
      if readFails {
        return Failed(LedgerFailed);
      }
      var rec := 0;
      if today in spentUsd {
        rec := spentUsd[today] - missed;
      }
      if rec + estimate > cap {
        return Failed(BudgetCapExceeded);
      }
      return Ok;
    }

    /** One atomic ADD of the amount and of one call. */
    method Record(today: nat, usd: int, write: Write) returns (r: Outcome)
      modifies this
      ensures r == if usd < 0 then Failed(NegativeAmount) else if write.Done? then Ok else Failed(LedgerFailed)
      ensures usd >= 0 && !write.Fails? ==>
                && spentUsd == old(spentUsd)[today := (if today in old(spentUsd) then old(spentUsd)[today] else 0) + usd]
                && callCount == old(callCount)[today := (if today in old(callCount) then old(callCount)[today] else 0) + 1]
      ensures usd < 0 || write.Fails? ==> spentUsd == old(spentUsd) && callCount == old(callCount)
    {
      if usd < 0 {
        return Failed(NegativeAmount);
      }
      if write.Fails? {
        return Failed(LedgerFailed);
      }
      var spent := if today in spentUsd then spentUsd[today] else 0;
      var calls := if today in callCount then callCount[today] else 0;
      spentUsd := spentUsd[today := spent + usd];
      callCount := callCount[today := calls + 1];
      return if write.Lost? then Failed(LedgerFailed) else Ok;
    }

    /**
     * Check, paid call, record. The clock is read twice, so the spend may land on a later
     * date than the one checked. `paid` is what the call cost, None when it failed.
     */
    method WithCostCap(checkedOn: nat, recordedOn: nat, estimate: int, cap: int, paid: Option<int>,
                       readFails: bool, missed: nat, write: Write)
      returns (called: bool, r: Outcome)
      requires missed <= Spent(spentUsd, checkedOn)
      modifies this
      ensures called <==>
                cap <= 0 || (!readFails && estimate >= 0
                             && (if checkedOn in old(spentUsd) then old(spentUsd)[checkedOn] else 0) - missed + estimate <= cap)
      ensures r == Ok <==> called && paid.Some? && paid.value >= 0 && write.Done?
      ensures called && paid.None? ==> r == Failed(CallFailed)
      ensures called && paid.Some? && r != Ok ==> r == Failed(if paid.value < 0 then NegativeAmount else LedgerFailed)
      ensures !called ==> r == Failed(if estimate < 0 then NegativeAmount else if readFails then LedgerFailed else BudgetCapExceeded)
      ensures var recorded := called && paid.Some? && paid.value >= 0 && !write.Fails?;
              && spentUsd == (if !recorded then old(spentUsd)
                              else old(spentUsd)[recordedOn := (if recordedOn in old(spentUsd) then old(spentUsd)[recordedOn] else 0)
                                                               + paid.value])
              && callCount == (if !recorded then old(callCount)
                               else old(callCount)[recordedOn := (if recordedOn in old(callCount) then old(callCount)[recordedOn] else 0)
                                                                 + 1])
      // With nobody else calling that day, this is the interleaved model's Admit, then Settle or Abandon.
      ensures estimate >= 0 && !readFails && recordedOn == checkedOn ==>
                var recorded := called && paid.Some? && paid.value >= 0 && !write.Fails?;
                var t := Next(cap, Sys(checkedOn, old(spentUsd), old(callCount), [], []), Admit(estimate, missed));
                && called == (|t.open| == 1)
                && spentUsd == Next(cap, t, if recorded then Settle(0, paid.value) else Abandon(0)).spent
                && callCount == Next(cap, t, if recorded then Settle(0, paid.value) else Abandon(0)).calls
    {
      var admitted := Assert(checkedOn, estimate, cap, readFails, missed);
      if admitted != Ok {
        return false, admitted;
      }
      if paid.None? {
        return true, Failed(CallFailed);
      }
      r := Record(recordedOn, paid.value, write);
      return true, r;
    }
  }

  // ----- all callers of one stage, interleaved -----------------------------------

  /** `open` holds the estimates of callers between their check and their record. */
  datatype Sys = Sys(today: nat, spent: Ledger, calls: Ledger, open: seq<nat>, recorded: seq<(nat, nat)>)

  const INITIAL := Sys(0, map[], map[], [], [])

  datatype Step =
    | Admit(estimate: nat, missed: nat)  // Assert, on a read that misses so much, succeeds or refuses
    | Settle(caller: nat, actual: nat)   // the call succeeded and Record took effect, seen or not
    | Abandon(caller: nat)               // the call or Record failed, or the worker died
    | Midnight                           // the UTC date changes

  function Without(s: seq<nat>, i: nat): seq<nat>
    requires i < |s|
  {
    s[..i] + s[i + 1..]
  }

  function Next(cap: int, s: Sys, step: Step): Sys {
    match step
    case Admit(estimate, missed) =>
      if missed <= Spent(s.spent, s.today) && Admits(cap, Spent(s.spent, s.today) - missed, estimate) then s.(open := s.open + [estimate]) else s
    case Settle(i, actual) =>
      if i < |s.open| then
        s.(spent := Add(s.spent, s.today, actual), calls := Add(s.calls, s.today, 1),
           open := Without(s.open, i), recorded := s.recorded + [(s.today, actual)])
      else s
    case Abandon(i) => if i < |s.open| then s.(open := Without(s.open, i)) else s
    case Midnight => s.(today := s.today + 1)
  }

  function Run(cap: int, s: Sys, steps: seq<Step>): Sys {
    if steps == [] then s else Next(cap, Run(cap, s, steps[..|steps| - 1]), steps[|steps| - 1])
  }

  /**
   * Estimates are at most `most`, a settled call costs at most its estimate, at most `k` are open,
   * and a check's read misses at most `lag` of the day's spend.
   */
  predicate Allowed(cap: int, k: nat, most: nat, lag: nat, s: Sys, step: Step) {
    && |Next(cap, s, step).open| <= k
    && (step.Admit? ==> step.estimate <= most && step.missed <= lag)
    && (step.Settle? && step.caller < |s.open| ==> step.actual <= s.open[step.caller])
  }

  predicate Disciplined(cap: int, k: nat, most: nat, lag: nat, s: Sys, steps: seq<Step>) {
    forall n :: 0 <= n < |steps| ==> Allowed(cap, k, most, lag, Run(cap, s, steps[..n]), steps[n])
  }

  function Sum(s: seq<nat>): nat {
    if s == [] then 0 else s[0] + Sum(s[1..])
  }

  lemma {:induction false} SumAppend(s: seq<nat>, t: seq<nat>)
    ensures Sum(s + t) == Sum(s) + Sum(t)
  {
    if s == [] {
      assert s + t == t;
    } else {
      SumAppend(s[1..], t);
      assert (s + t)[1..] == s[1..] + t;
    }
  }

  lemma {:induction false} SumWithout(s: seq<nat>, i: nat)
    requires i < |s|
    ensures Sum(Without(s, i)) == Sum(s) - s[i]
  {
    SumAppend(s[..i], s[i + 1..]);
    SumAppend(s[..i], s[i..]);
    assert s == s[..i] + s[i..];
    assert s[i..][1..] == s[i + 1..];
  }

  lemma {:induction false} SumAtMost(s: seq<nat>, most: nat)
    requires forall i :: 0 <= i < |s| ==> s[i] <= most
    ensures Sum(s) <= |s| * most
  {
    if s != [] {
      SumAtMost(s[1..], most);
      assert |s| * most == most + |s[1..]| * most;
    }
  }

  lemma {:induction false} MoreCallersCostMore(m: nat, n: nat, most: nat)
    requires m <= n
    ensures m * most <= n * most
  {
  }

  function Bound(cap: int, k: nat, most: nat, lag: nat): int
    requires k >= 1
  {
    cap + lag + (k - 1) * most
  }

  ghost predicate Inv(cap: int, k: nat, most: nat, lag: nat, s: Sys)
    requires k >= 1
  {
    && |s.open| <= k
    && (forall i :: 0 <= i < |s.open| ==> s.open[i] <= most && s.open[i] <= cap)
    && (forall d: nat :: Spent(s.spent, d) <= Bound(cap, k, most, lag))
    && (forall d: nat :: d > s.today ==> Spent(s.spent, d) == 0)
    && Spent(s.spent, s.today) + Sum(s.open) <= Bound(cap, k, most, lag)
  }

  lemma SpentAfterAdd(l: Ledger, date: nat, amount: nat)
    ensures forall d: nat :: Spent(Add(l, date, amount), d) == Spent(l, d) + if d == date then amount else 0
  {
  }

  lemma {:induction false} AdmitKeeps(cap: int, k: nat, most: nat, lag: nat, s: Sys, estimate: nat, missed: nat)
    requires cap > 0 && k >= 1 && Inv(cap, k, most, lag, s) && Allowed(cap, k, most, lag, s, Admit(estimate, missed))
    ensures Inv(cap, k, most, lag, Next(cap, s, Admit(estimate, missed)))
  {
    SumAppend(s.open, [estimate]);
    SumAtMost(s.open, most);
    if |s.open| + 1 <= k {
      MoreCallersCostMore(|s.open|, k - 1, most);
    }
  }

  lemma {:induction false} SettleKeeps(cap: int, k: nat, most: nat, lag: nat, s: Sys, i: nat, actual: nat)
    requires cap > 0 && k >= 1 && Inv(cap, k, most, lag, s) && i < |s.open| && actual <= s.open[i]
    ensures Inv(cap, k, most, lag, Next(cap, s, Settle(i, actual)))
  {
    SumWithout(s.open, i);
    SpentAfterAdd(s.spent, s.today, actual);
  }

  lemma {:induction false} MidnightKeeps(cap: int, k: nat, most: nat, lag: nat, s: Sys)
    requires cap > 0 && k >= 1 && Inv(cap, k, most, lag, s)
    ensures Inv(cap, k, most, lag, Next(cap, s, Midnight))
  {
    if s.open != [] {
      SumAtMost(s.open[1..], most);
      MoreCallersCostMore(|s.open| - 1, k - 1, most);
    }
  }

  lemma {:induction false} InvStep(cap: int, k: nat, most: nat, lag: nat, s: Sys, step: Step)
    requires cap > 0 && k >= 1 && Inv(cap, k, most, lag, s) && Allowed(cap, k, most, lag, s, step)
    ensures Inv(cap, k, most, lag, Next(cap, s, step))
  {
    match step {
      case Admit(estimate, missed) => AdmitKeeps(cap, k, most, lag, s, estimate, missed);
      case Settle(i, actual) =>
        if i < |s.open| {
          SettleKeeps(cap, k, most, lag, s, i, actual);
        }
      case Abandon(i) =>
        if i < |s.open| {
          SumWithout(s.open, i);
        }
      case Midnight => MidnightKeeps(cap, k, most, lag, s);
    }
  }

  lemma {:induction false} InvRun(cap: int, k: nat, most: nat, lag: nat, s: Sys, steps: seq<Step>)
    requires cap > 0 && k >= 1 && Inv(cap, k, most, lag, s) && Disciplined(cap, k, most, lag, s, steps)
    ensures Inv(cap, k, most, lag, Run(cap, s, steps))
  {
    if steps != [] {
      var n := |steps| - 1;
      forall m | 0 <= m < n
        ensures Allowed(cap, k, most, lag, Run(cap, s, steps[..n][..m]), steps[..n][m])
      {
        assert steps[..n][..m] == steps[..m];
      }
      InvRun(cap, k, most, lag, s, steps[..n]);
      InvStep(cap, k, most, lag, Run(cap, s, steps[..n]), steps[n]);
    }
  }

  /**
   * With at most k callers between check and record, no date's recorded spend passes the cap
   * by more than k - 1 of the largest estimates and what reads may miss, callers that straddle
   * midnight included.
   */
  lemma {:induction false} SpendBounded(cap: int, k: nat, most: nat, lag: nat, steps: seq<Step>, date: nat)
    requires cap > 0 && k >= 1 && Disciplined(cap, k, most, lag, INITIAL, steps)
    ensures Spent(Run(cap, INITIAL, steps).spent, date) <= cap + lag + (k - 1) * most
  {
    assert Inv(cap, k, most, lag, INITIAL);
    InvRun(cap, k, most, lag, INITIAL, steps);
  }

  /** One caller at a time never exceeds the cap by more than reads may miss: with consistent reads, never. */
  lemma {:induction false} SequentialCallersKeepCap(cap: int, most: nat, lag: nat, steps: seq<Step>, date: nat)
    requires cap > 0 && Disciplined(cap, 1, most, lag, INITIAL, steps)
    ensures Spent(Run(cap, INITIAL, steps).spent, date) <= cap + lag
  {
    SpendBounded(cap, 1, most, lag, steps, date);
  }

  /** The most a read may miss of the day's spend. */
  function Stalest(s: Sys, lag: nat): nat {
    if lag <= Spent(s.spent, s.today) then lag else Spent(s.spent, s.today)
  }

  // ----- the bound is exact -----------------------------------------------------------

  lemma {:induction false} RunConcat(cap: int, s: Sys, a: seq<Step>, b: seq<Step>)
    ensures Run(cap, s, a + b) == Run(cap, Run(cap, s, a), b)
  {
    if b == [] {
      assert a + b == a;
    } else {
      var n := |b| - 1;
      assert (a + b)[..|a + b| - 1] == a + b[..n];
      RunConcat(cap, s, a, b[..n]);
    }
  }

  lemma {:induction false} DisciplinedConcat(cap: int, k: nat, most: nat, lag: nat, s: Sys, a: seq<Step>, b: seq<Step>)
    requires Disciplined(cap, k, most, lag, s, a) && Disciplined(cap, k, most, lag, Run(cap, s, a), b)
    ensures Disciplined(cap, k, most, lag, s, a + b)
    ensures Run(cap, s, a + b) == Run(cap, Run(cap, s, a), b)
  {
    RunConcat(cap, s, a, b);
    forall n | 0 <= n < |a + b|
      ensures Allowed(cap, k, most, lag, Run(cap, s, (a + b)[..n]), (a + b)[n])
    {
      if n < |a| {
        assert (a + b)[..n] == a[..n];
      } else {
        assert (a + b)[..n] == a + b[..n - |a|];
        RunConcat(cap, s, a, b[..n - |a|]);
      }
    }
  }

  lemma {:induction false} OneStep(cap: int, k: nat, most: nat, lag: nat, s: Sys, step: Step)
    requires Allowed(cap, k, most, lag, s, step)
    ensures Disciplined(cap, k, most, lag, s, [step]) && Run(cap, s, [step]) == Next(cap, s, step)
  {
    assert [step][..0] == [];
  }

  lemma {:induction false} PayInTurn(cap: int, k: nat, most: nat, lag: nat, s: Sys, amount: nat) returns (steps: seq<Step>)
    requires k >= 1 && most >= 1 && s.open == []
    requires cap <= 0 || (most <= cap && Spent(s.spent, s.today) + amount <= cap + lag)
    ensures Disciplined(cap, k, most, lag, s, steps)
    ensures var r := Run(cap, s, steps);
            r.open == [] && r.today == s.today && Spent(r.spent, r.today) == Spent(s.spent, s.today) + amount
    decreases amount
  {
    if amount == 0 {
      steps := [];
    } else {
      var part := if amount < most then amount else most;
      OneStep(cap, k, most, lag, s, Admit(part, Stalest(s, lag)));
      var s1 := Next(cap, s, Admit(part, Stalest(s, lag)));
      OneStep(cap, k, most, lag, s1, Settle(0, part));
      var s2 := Next(cap, s1, Settle(0, part));
      SpentAfterAdd(s.spent, s.today, part);
      DisciplinedConcat(cap, k, most, lag, s, [Admit(part, Stalest(s, lag))], [Settle(0, part)]);
      var rest := PayInTurn(cap, k, most, lag, s2, amount - part);
      DisciplinedConcat(cap, k, most, lag, s, [Admit(part, Stalest(s, lag))] + [Settle(0, part)], rest);
      steps := [Admit(part, Stalest(s, lag))] + [Settle(0, part)] + rest;
    }
  }

  predicate Uniform(s: seq<nat>, n: nat, value: nat) {
    |s| == n && forall i :: 0 <= i < n ==> s[i] == value
  }

  lemma {:induction false} AdmitTogether(cap: int, k: nat, most: nat, lag: nat, s: Sys, n: nat) returns (steps: seq<Step>)
    requires n <= k && Uniform(s.open, k - n, most) && Spent(s.spent, s.today) + most <= cap + lag && most <= cap
    ensures Disciplined(cap, k, most, lag, s, steps)
    ensures var r := Run(cap, s, steps); Uniform(r.open, k, most) && r.spent == s.spent && r.today == s.today
    decreases n
  {
    if n == 0 {
      steps := [];
    } else {
      OneStep(cap, k, most, lag, s, Admit(most, Stalest(s, lag)));
      var rest := AdmitTogether(cap, k, most, lag, Next(cap, s, Admit(most, Stalest(s, lag))), n - 1);
      DisciplinedConcat(cap, k, most, lag, s, [Admit(most, Stalest(s, lag))], rest);
      steps := [Admit(most, Stalest(s, lag))] + rest;
    }
  }

  lemma {:induction false} SumUniform(s: seq<nat>, n: nat, value: nat)
    requires Uniform(s, n, value)
    ensures Sum(s) == n * value
  {
    if n > 0 {
      SumUniform(s[1..], n - 1, value);
      assert n * value == value + (n - 1) * value;
    }
  }

  lemma {:induction false} SettleAll(cap: int, k: nat, most: nat, lag: nat, s: Sys, n: nat) returns (steps: seq<Step>)
    requires n <= k && Uniform(s.open, n, most)
    ensures Disciplined(cap, k, most, lag, s, steps)
    ensures var r := Run(cap, s, steps);
            r.today == s.today && Spent(r.spent, r.today) == Spent(s.spent, s.today) + Sum(s.open)
    decreases n
  {
    if n == 0 {
      steps := [];
    } else {
      OneStep(cap, k, most, lag, s, Settle(0, most));
      var t := Next(cap, s, Settle(0, most));
      SpentAfterAdd(s.spent, s.today, most);
      SumWithout(s.open, 0);
      var rest := SettleAll(cap, k, most, lag, t, n - 1);
      DisciplinedConcat(cap, k, most, lag, s, [Settle(0, most)], rest);
      steps := [Settle(0, most)] + rest;
    }
  }

  /** For every cap, k and largest estimate, some run spends exactly the bound. */
  lemma {:induction false} BoundReached(cap: int, k: nat, most: nat, lag: nat) returns (steps: seq<Step>)
    requires k >= 1 && 1 <= most <= cap
    ensures Disciplined(cap, k, most, lag, INITIAL, steps)
    ensures Spent(Run(cap, INITIAL, steps).spent, 0) == cap + lag + (k - 1) * most
  {
    var pay := PayInTurn(cap, k, most, lag, INITIAL, cap + lag - most);
    var s1 := Run(cap, INITIAL, pay);
    var burst := Burst(cap, k, most, lag, s1);
    DisciplinedConcat(cap, k, most, lag, INITIAL, pay, burst);
    steps := pay + burst;
    assert k * most == most + (k - 1) * most;
  }

  /** Without a positive cap there is no bound at all: a single caller spends any amount. */
  lemma {:induction false} NoCapNoBound(cap: int, most: nat, lag: nat, amount: nat) returns (steps: seq<Step>)
    requires cap <= 0 && most >= 1
    ensures Disciplined(cap, 1, most, lag, INITIAL, steps)
    ensures Spent(Run(cap, INITIAL, steps).spent, 0) == amount
  {
    steps := PayInTurn(cap, 1, most, lag, INITIAL, amount);
  }

  /** k callers pass the check on the same ledger, then all record. */
  lemma {:induction false} Burst(cap: int, k: nat, most: nat, lag: nat, s: Sys) returns (steps: seq<Step>)
    requires s.open == [] && Spent(s.spent, s.today) + most <= cap + lag && most <= cap
    ensures Disciplined(cap, k, most, lag, s, steps)
    ensures var r := Run(cap, s, steps);
            r.today == s.today && Spent(r.spent, r.today) == Spent(s.spent, s.today) + k * most
  {
    var admit := AdmitTogether(cap, k, most, lag, s, k);
    var t := Run(cap, s, admit);
    SumUniform(t.open, k, most);
    var settle := SettleAll(cap, k, most, lag, t, k);
    DisciplinedConcat(cap, k, most, lag, s, admit, settle);
    steps := admit + settle;
  }

  // ----- the ledger is the sum of what was recorded --------------------------------

  function TotalOn(recorded: seq<(nat, nat)>, date: nat): nat {
    if recorded == [] then 0
    else
      var last := recorded[|recorded| - 1];
      TotalOn(recorded[..|recorded| - 1], date) + if last.0 == date then last.1 else 0
  }

  function CountOn(recorded: seq<(nat, nat)>, date: nat): nat {
    if recorded == [] then 0
    else
      CountOn(recorded[..|recorded| - 1], date) + if recorded[|recorded| - 1].0 == date then 1 else 0
  }

  lemma {:induction false} RecordedNext(recorded: seq<(nat, nat)>, last: (nat, nat), date: nat)
    ensures TotalOn(recorded + [last], date) == TotalOn(recorded, date) + (if last.0 == date then last.1 else 0)
    ensures CountOn(recorded + [last], date) == CountOn(recorded, date) + (if last.0 == date then 1 else 0)
  {
    assert (recorded + [last])[..|recorded|] == recorded;
  }

  lemma {:induction false} LedgerStep(cap: int, s: Sys, step: Step, date: nat)
    requires Spent(s.spent, date) == TotalOn(s.recorded, date) && Spent(s.calls, date) == CountOn(s.recorded, date)
    ensures var t := Next(cap, s, step);
            Spent(t.spent, date) == TotalOn(t.recorded, date) && Spent(t.calls, date) == CountOn(t.recorded, date)
  {
    if step.Settle? && step.caller < |s.open| {
      RecordedNext(s.recorded, (s.today, step.actual), date);
    }
  }

  /** No interleaving loses or doubles a recorded amount or a call. */
  lemma {:induction false} LedgerIsSumOfRecords(cap: int, steps: seq<Step>, date: nat)
    ensures var s := Run(cap, INITIAL, steps);
            Spent(s.spent, date) == TotalOn(s.recorded, date) && Spent(s.calls, date) == CountOn(s.recorded, date)
  {
    if steps != [] {
      var n := |steps| - 1;
      LedgerIsSumOfRecords(cap, steps[..n], date);
      LedgerStep(cap, Run(cap, INITIAL, steps[..n]), steps[n], date);
    }
  }
}
