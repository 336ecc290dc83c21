/**
 * The review queue's cap: qualifiers count the slots in use and then write, and a freed slot lets
 * the promoter take one business out of the backlog without counting.
 */
module ReviewQueue {
  import opened Common
  import opened StatusIndex

  /** What a qualifier has decided and not yet written. */
  datatype Decision = Decision(id: string, sort: string, backlogged: bool)

  /** `pending` are the slot-freed events on their way to the promoter. */
  datatype Sys = Sys(rows: map<string, Row>, open: seq<Decision>, pending: nat)

  datatype Step =
    | Count(id: string, sort: string, missed: nat)   // the count misses some of the slots in use
    | Write(i: nat)
    | Crash(i: nat)                                  // or a failed status update, which is only logged
    | Free(id: string, status: string)
    | PromoteOne(id: string)
    | Other(step: StatusIndex.Step)

  /** The gate: off without a positive maximum. */
  predicate Backlogs(max: int, active: int) {
    max > 0 && active >= max
  }

  function Without(open: seq<Decision>, i: nat): seq<Decision>
    requires i < |open|
  {
    open[..i] + open[i + 1..]
  }

  function Next(max: int, s: Sys, step: Step): Sys {
    match step
    case Count(id, sort, missed) => s.(open := s.open + [Decision(id, sort, Backlogs(max, |ActiveIn(s.rows)| - missed))])
    case Write(i) =>
      if i >= |s.open| then s
      else
        var d := s.open[i];
        s.(rows := Apply(s.rows, Qualify(d.id, true, d.sort, d.backlogged)), open := Without(s.open, i))
    case Crash(i) => if i >= |s.open| then s else s.(open := Without(s.open, i))
    case Free(id, status) =>
      if id !in s.rows || !Active(s.rows[id]) then s
      else s.(rows := Guarded(s.rows, id, status), pending := s.pending + 1)
    case PromoteOne(id) =>
      if s.pending == 0 then s else s.(rows := Apply(s.rows, Promote(id)), pending := s.pending - 1)
    case Other(step) => s.(rows := Apply(s.rows, step))
  }

  function Run(max: int, s: Sys, steps: seq<Step>): Sys {
    if steps == [] then s else Next(max, Run(max, s, steps[..|steps| - 1]), steps[|steps| - 1])
  }

  predicate Inactive(status: string) {
    status != "awaiting_review" && status != "qualified"
  }

  /**
   * At most k qualifiers between count and write, at most `freed` events on their way, and counts
   * that miss at most `lag` slots; qualifying and promoting go through their own steps.
   */
  predicate Allowed(k: nat, freed: nat, lag: nat, s: Sys, step: Step) {
    match step
    case Count(_, _, missed) => |s.open| < k && missed <= lag
    case Free(_, status) => s.pending < freed && Inactive(status)
    case Other(step) => !step.Promote? && (step.Qualify? ==> !step.qualified)
    case _ => true
  }

  ghost predicate Disciplined(max: int, k: nat, freed: nat, lag: nat, s: Sys, steps: seq<Step>) {
    forall n :: 0 <= n < |steps| ==> Allowed(k, freed, lag, Run(max, s, steps[..n]), steps[n])
  }

  // ----- the qualifier as it runs ---------------------------------------------------------

  datatype Outcome = Decided | Refused

  /** What the two queries of the count show. */
  function SeenActive(queries: (Query, Query)): nat {
    |OfStatus(queries.0.seen, "awaiting_review", false)| + |OfStatus(queries.1.seen, "qualified", true)|
  }

  /** Nothing the decision needs is missing: a qualified business needs the setting, and under a cap the count. */
  predicate Decidable(qualified: bool, max: Option<int>, queries: Option<(Query, Query)>) {
    qualified ==> max.Some? && (max.value > 0 ==> queries.Some?)
  }

  predicate FindsFull(qualified: bool, max: Option<int>, queries: Option<(Query, Query)>) {
    qualified && max.Some? && queries.Some? && Backlogs(max.value, SeenActive(queries.value))
  }

  /** The decision's two steps with nothing between them. */
  function Alone(max: int, rows: map<string, Row>, id: string, sort: string, updateFails: bool): map<string, Row> {
    var counted := Next(max, Sys(rows, [], 0), Count(id, sort, 0));
    Next(max, counted, if updateFails then Crash(0) else Write(0)).rows
  }

  class Qualifier {
    var rows: map<string, Row>

    constructor (rows: map<string, Row>)
      ensures this.rows == rows
    {
      this.rows := rows;
    }

    /**
     * From the score on: count, write, announce. `max` is None when the setting cannot be read,
     * the queries when the count fails; `recordFails` is the put of the qualification row, and a
     * failing status update is logged only.
     */
    method Decide(id: string, qualified: bool, sort: string, max: Option<int>, queries: Option<(Query, Query)>,
                  recordFails: bool, updateFails: bool, publishFails: bool)
      returns (r: Outcome, announced: bool)
      requires queries.Some? ==> Answered(queries.value.0, "awaiting_review") && Answered(queries.value.1, "qualified")
      modifies this
      ensures r == Refused <==> !Decidable(qualified, max, queries) || recordFails || (publishFails && !FindsFull(qualified, max, queries))
      ensures announced <==> r == Decided && !FindsFull(qualified, max, queries)
      ensures rows == if Decidable(qualified, max, queries) && !recordFails && !updateFails
                      then Apply(old(rows), Qualify(id, qualified, sort, FindsFull(qualified, max, queries)))
                      else old(rows)
      ensures qualified && max.Some? && queries.Some? && !recordFails && queries.value.0.seen == old(rows) == queries.value.1.seen ==>
                rows == Alone(max.value, old(rows), id, sort, updateFails)
    {
      var backlogged := false;
      if qualified {
        if max.None? {
          return Refused, false;
        }
        if max.value > 0 {
          if queries.None? {
            return Refused, false;
          }
          var active := CountActiveSlots(queries.value.0, queries.value.1);
          backlogged := active >= max.value;
        }
      }
      if recordFails {
        return Refused, false;
      }
      if !updateFails && id in rows {
        var status := if qualified then "qualified" else "rejected";
        rows := rows[id := Row(status, "BUSINESS#STATUS#" + status, sort, rows[id].vertical, Some(backlogged))];
      }
      if backlogged {
        return Decided, false;
      }
      return if publishFails then Refused else Decided, !publishFails;
    }
  }

  // ----- how full the queue can get -----------------------------------------------------------

  /** Decisions that will take a slot. */
  function Cleared(open: seq<Decision>): nat {
    if open == [] then 0 else (if open[0].backlogged then 0 else 1) + Cleared(open[1..])
  }

  lemma {:induction false} ClearedAppend(a: seq<Decision>, b: seq<Decision>)
    ensures Cleared(a + b) == Cleared(a) + Cleared(b)
  {
    if a == [] {
      assert a + b == b;
    } else {
      assert (a + b)[1..] == a[1..] + b;
      ClearedAppend(a[1..], b);
    }
  }

  lemma {:induction false} ClearedOfOne(d: Decision)
    ensures Cleared([d]) == if d.backlogged then 0 else 1
  {
    assert [d][1..] == [];
  }

  lemma {:induction false} ClearedWithout(open: seq<Decision>, i: nat)
    requires i < |open|
    ensures Cleared(open) == Cleared(Without(open, i)) + if open[i].backlogged then 0 else 1
  {
    var front, back := open[..i], open[i + 1..];
    assert open == front + ([open[i]] + back);
    ClearedAppend(front, [open[i]] + back);
    ClearedAppend([open[i]], back);
    ClearedOfOne(open[i]);
    ClearedAppend(front, back);
  }

  lemma {:induction false} ClearedAtMost(open: seq<Decision>)
    ensures Cleared(open) <= |open|
  {
    if open != [] {
      ClearedAtMost(open[1..]);
    }
  }

  /** Writing one row takes or frees one slot at most. */
  lemma {:induction false} OneRowActive(rows: map<string, Row>, id: string, row: Row)
    ensures ActiveIn(rows[id := row]) == if Active(row) then ActiveIn(rows) + {id} else ActiveIn(rows) - {id}
    ensures |ActiveIn(rows[id := row])| <= |ActiveIn(rows)| + 1
    ensures !Active(row) || (id in rows && Active(rows[id])) ==> |ActiveIn(rows[id := row])| <= |ActiveIn(rows)|
    ensures !Active(row) && id in rows && Active(rows[id]) ==> |ActiveIn(rows[id := row])| == |ActiveIn(rows)| - 1
  {
    var after := ActiveIn(rows[id := row]);
    assert after == if Active(row) then ActiveIn(rows) + {id} else ActiveIn(rows) - {id};
    assert id in rows && Active(rows[id]) ==> id in ActiveIn(rows) && ActiveIn(rows) + {id} == ActiveIn(rows);
  }

  lemma {:induction false} GuardedFrees(rows: map<string, Row>, id: string, status: string)
    requires Inactive(status)
    ensures |ActiveIn(Guarded(rows, id, status))| <= |ActiveIn(rows)|
    ensures id in rows && Active(rows[id]) ==> |ActiveIn(Guarded(rows, id, status))| == |ActiveIn(rows)| - 1
  {
    if id in rows && rows[id].status != "converted" {
      OneRowActive(rows, id, rows[id].(status := status, indexKey := StatusKey(status)));
    }
    assert "converted"[0] == 'c' && "awaiting_review"[0] == 'a' && "qualified"[0] == 'q';
  }

  lemma {:induction false} ReplyStatusesInactive()
    ensures Inactive("rejected_after_review") && Inactive("responded") && Inactive("new") && Inactive("rejected")
  {
    assert "rejected_after_review"[0] == 'r' && "responded"[0] == 'r' && "new"[0] == 'n' && "rejected"[0] == 'r';
    assert "awaiting_review"[0] == 'a' && "qualified"[0] == 'q';
  }

  lemma {:induction false} OthersTakeNone(rows: map<string, Row>, step: StatusIndex.Step)
    requires !step.Promote? && (step.Qualify? ==> !step.qualified)
    ensures |ActiveIn(Apply(rows, step))| <= |ActiveIn(rows)|
  {
    ReplyStatusesInactive();
    match step
    case Discover(id, sort, vertical) => OneRowActive(rows, id, Row("new", StatusKey("new"), sort, vertical, None));
    case Qualify(id, _, sort, awaiting) =>
      if id in rows {
        OneRowActive(rows, id, rows[id].(status := "rejected", indexKey := StatusKey("rejected"), indexSort := sort, awaiting := Some(awaiting)));
      }
    case MarkResponded(id) => GuardedFrees(rows, id, "responded");
    case TriageStatus(id, unsubscribed) =>
      GuardedFrees(rows, id, if unsubscribed then "rejected_after_review" else "responded");
    case Reclassify(id, sk, found, category) =>
      var marked := if sk == "PROFILE" && id in rows then rows[id := rows[id].(indexKey := REVIEWED_KEY)] else rows;
      if sk == "PROFILE" && id in rows {
        OneRowActive(rows, id, rows[id].(indexKey := REVIEWED_KEY));
      }
      GuardedFrees(marked, id, "rejected_after_review");
      GuardedFrees(marked, id, "responded");
  }

  function Bound(max: int, k: nat, freed: nat, lag: nat): int {
    max + lag + (k - 1) + freed
  }

  /** Slots in use, about to be taken, and about to be given away by the promoter. */
  ghost predicate Inv(max: int, k: nat, freed: nat, lag: nat, s: Sys) {
    && |s.open| <= k && s.pending <= freed
    && |ActiveIn(s.rows)| + Cleared(s.open) + s.pending <= Bound(max, k, freed, lag)
  }

  lemma {:induction false} CountKeeps(max: int, k: nat, freed: nat, lag: nat, s: Sys, step: Step)
    requires max > 0 && k >= 1 && step.Count? && Inv(max, k, freed, lag, s) && Allowed(k, freed, lag, s, step)
    ensures Inv(max, k, freed, lag, Next(max, s, step))
  {
    var d := Decision(step.id, step.sort, Backlogs(max, |ActiveIn(s.rows)| - step.missed));
    ClearedAppend(s.open, [d]);
    ClearedOfOne(d);
    ClearedAtMost(s.open);
  }

  lemma {:induction false} WriteKeeps(max: int, k: nat, freed: nat, lag: nat, s: Sys, i: nat)
    requires i < |s.open| && Inv(max, k, freed, lag, s)
    ensures Inv(max, k, freed, lag, Next(max, s, Write(i)))
  {
    var d := s.open[i];
    ClearedWithout(s.open, i);
    if d.id in s.rows {
      var row := s.rows[d.id].(status := "qualified", indexKey := StatusKey("qualified"), indexSort := d.sort,
                               awaiting := Some(d.backlogged));
      assert "qualified"[0] == 'q' && "awaiting_review"[0] == 'a';
      OneRowActive(s.rows, d.id, row);
    }
  }

  lemma {:induction false} PromoteKeeps(max: int, k: nat, freed: nat, lag: nat, s: Sys, id: string)
    requires Inv(max, k, freed, lag, s)
    ensures Inv(max, k, freed, lag, Next(max, s, PromoteOne(id)))
  {
    if id in s.rows {
      OneRowActive(s.rows, id, s.rows[id].(awaiting := Some(false)));
    }
  }

  lemma {:induction false} InvStep(max: int, k: nat, freed: nat, lag: nat, s: Sys, step: Step)
    requires max > 0 && k >= 1 && Inv(max, k, freed, lag, s) && Allowed(k, freed, lag, s, step)
    ensures Inv(max, k, freed, lag, Next(max, s, step))
  {
    match step
    case Count(_, _, _) => CountKeeps(max, k, freed, lag, s, step);
    case Write(i) =>
      if i < |s.open| {
        WriteKeeps(max, k, freed, lag, s, i);
      }
    case Crash(i) =>
      if i < |s.open| {
        ClearedWithout(s.open, i);
      }
    case Free(id, status) => GuardedFrees(s.rows, id, status);
    case PromoteOne(id) => PromoteKeeps(max, k, freed, lag, s, id);
    case Other(step) => OthersTakeNone(s.rows, step);
  }

  lemma {:induction false} InvRun(max: int, k: nat, freed: nat, lag: nat, s: Sys, steps: seq<Step>)
    requires max > 0 && k >= 1 && Inv(max, k, freed, lag, s) && Disciplined(max, k, freed, lag, s, steps)
    ensures Inv(max, k, freed, lag, Run(max, s, steps))
  {
    if steps != [] {
      var before := steps[..|steps| - 1];
      assert forall n :: 0 <= n <= |before| ==> before[..n] == steps[..n];
      InvRun(max, k, freed, lag, s, before);
      InvStep(max, k, freed, lag, Run(max, s, before), steps[|steps| - 1]);
    }
  }

  /**
   * Under a positive maximum, with at most k qualifiers between count and write, counts that miss
   * at most `lag`, and at most `freed` slot-freed events on their way, the slots in use never pass
   * the maximum by more than lag + (k - 1) + freed.
   */
  lemma {:induction false} QueueBounded(max: int, k: nat, freed: nat, lag: nat, rows: map<string, Row>, steps: seq<Step>)
    requires max > 0 && k >= 1 && |ActiveIn(rows)| <= max && Disciplined(max, k, freed, lag, Sys(rows, [], 0), steps)
    ensures |ActiveIn(Run(max, Sys(rows, [], 0), steps).rows)| <= max + lag + (k - 1) + freed
  {
    InvRun(max, k, freed, lag, Sys(rows, [], 0), steps);
  }

  // ----- the bound is reached -----------------------------------------------------------------

  lemma {:induction false} RunConcat(max: int, s: Sys, a: seq<Step>, b: seq<Step>)
    ensures Run(max, s, a + b) == Run(max, Run(max, s, a), b)
  {
    if b == [] {
      assert a + b == a;
    } else {
      RunConcat(max, s, a, b[..|b| - 1]);
      assert (a + b)[..|a + b| - 1] == a + b[..|b| - 1];
    }
  }

  lemma {:induction false} DisciplinedConcat(max: int, k: nat, freed: nat, lag: nat, s: Sys, a: seq<Step>, b: seq<Step>)
    requires Disciplined(max, k, freed, lag, s, a) && Disciplined(max, k, freed, lag, Run(max, s, a), b)
    ensures Disciplined(max, k, freed, lag, s, a + b) && Run(max, s, a + b) == Run(max, Run(max, s, a), b)
  {
    RunConcat(max, s, a, b);
    forall n | 0 <= n < |a + b|
      ensures Allowed(k, freed, lag, Run(max, s, (a + b)[..n]), (a + b)[n])
    {
      if n < |a| {
        assert (a + b)[..n] == a[..n];
      } else {
        assert (a + b)[..n] == a + b[..n - |a|];
        RunConcat(max, s, a, b[..n - |a|]);
      }
    }
  }

  lemma {:induction false} OneStep(max: int, k: nat, freed: nat, lag: nat, s: Sys, step: Step)
    requires Allowed(k, freed, lag, s, step)
    ensures Disciplined(max, k, freed, lag, s, [step]) && Run(max, s, [step]) == Next(max, s, step)
  {
    assert [step][..0] == [];
  }

  /** These businesses are known, waiting to be qualified, and each named once. */
  predicate Waiting(rows: map<string, Row>, ids: seq<string>) {
    Distinct(ids) && forall n :: 0 <= n < |ids| ==> ids[n] in rows && !Active(rows[ids[n]])
  }

  function ToTake(ids: seq<string>): (r: seq<Decision>)
    ensures |r| == |ids| && forall n :: 0 <= n < |ids| ==> r[n] == Decision(ids[n], "", false)
  {
    if ids == [] then [] else [Decision(ids[0], "", false)] + ToTake(ids[1..])
  }

  lemma {:induction false} ToTakeNext(open: seq<Decision>, ids: seq<string>)
    requires ids != []
    ensures (open + [Decision(ids[0], "", false)]) + ToTake(ids[1..]) == open + ToTake(ids)
  {
  }

  /** The waiting businesses counted in one after the other, before any is written. */
  lemma {:induction false} CountTogether(max: int, k: nat, lag: nat, s: Sys, ids: seq<string>) returns (steps: seq<Step>)
    requires max > 0 && |s.open| + |ids| <= k && lag <= |ActiveIn(s.rows)| < max + lag
    ensures Disciplined(max, k, 0, lag, s, steps)
    ensures Run(max, s, steps) == s.(open := s.open + ToTake(ids))
    decreases |ids|
  {
    if ids == [] {
      steps := [];
      assert s.open + ToTake(ids) == s.open;
    } else {
      var count := Count(ids[0], "", lag);
      OneStep(max, k, 0, lag, s, count);
      var t := s.(open := s.open + [Decision(ids[0], "", false)]);
      assert Next(max, s, count) == t;
      var rest := CountTogether(max, k, lag, t, ids[1..]);
      DisciplinedConcat(max, k, 0, lag, s, [count], rest);
      ToTakeNext(s.open, ids);
      steps := [count] + rest;
    }
  }

  /** Then all of them written: each takes a slot. */
  lemma {:induction false} WriteAll(max: int, k: nat, lag: nat, s: Sys, ids: seq<string>) returns (steps: seq<Step>)
    requires Waiting(s.rows, ids) && |s.open| == |ids|
    requires forall n :: 0 <= n < |ids| ==> s.open[n] == Decision(ids[n], "", false)
    ensures Disciplined(max, k, 0, lag, s, steps)
    ensures |ActiveIn(Run(max, s, steps).rows)| == |ActiveIn(s.rows)| + |ids| && Run(max, s, steps).open == []
    ensures Run(max, s, steps).pending == s.pending
    ensures forall id :: id in s.rows && id !in ids ==>
              id in Run(max, s, steps).rows && Run(max, s, steps).rows[id] == s.rows[id]
    decreases |ids|
  {
    if ids == [] {
      steps := [];
    } else {
      OneStep(max, k, 0, lag, s, Write(0));
      var t := Next(max, s, Write(0));
      FirstWritten(max, s, ids[0]);
      var rest := WriteAll(max, k, lag, t, ids[1..]);
      DisciplinedConcat(max, k, 0, lag, s, [Write(0)], rest);
      steps := [Write(0)] + rest;
    }
  }

  lemma {:induction false} FirstWritten(max: int, s: Sys, id: string)
    requires s.open != [] && s.open[0] == Decision(id, "", false) && id in s.rows && !Active(s.rows[id])
    ensures var t := Next(max, s, Write(0));
            && t.open == s.open[1..] && t.pending == s.pending && |ActiveIn(t.rows)| == |ActiveIn(s.rows)| + 1
            && t.rows.Keys == s.rows.Keys && forall other :: other in s.rows && other != id ==> t.rows[other] == s.rows[other]
  {
    var row := s.rows[id].(status := "qualified", indexKey := StatusKey("qualified"), indexSort := "", awaiting := Some(false));
    OneRowActive(s.rows, id, row);
    assert id !in ActiveIn(s.rows);
    assert s.open[..0] + s.open[1..] == s.open[1..];
  }

  /**
   * For every maximum, k and lag: from a table one short of what a count may still clear, with k
   * businesses waiting, k qualifiers that count before any of them writes fill it to the bound.
   */
  lemma {:induction false} QueueBoundReached(max: int, k: nat, lag: nat, rows: map<string, Row>, ids: seq<string>)
    returns (steps: seq<Step>)
    requires max > 0 && |ids| == k >= 1 && Waiting(rows, ids) && |ActiveIn(rows)| == max + lag - 1
    ensures Disciplined(max, k, 0, lag, Sys(rows, [], 0), steps)
    ensures |ActiveIn(Run(max, Sys(rows, [], 0), steps).rows)| == max + lag + (k - 1)
  {
    var s := Sys(rows, [], 0);
    var count := CountTogether(max, k, lag, s, ids);
    var write := WriteAll(max, k, lag, Run(max, s, count), ids);
    DisciplinedConcat(max, k, 0, lag, s, count, write);
    steps := count + write;
  }
}
