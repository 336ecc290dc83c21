/**
 * Business rows, their status index, and everything that counts through it. The index lists a row
 * under its gsi1pk attribute; every query comes in pages.
 */
module StatusIndex {
  import opened Common

  const PREFIX := "BUSINESS#STATUS#"
  const REVIEWED_KEY := "REPLYTRIAGE#STATUS#reviewed"

  datatype Row = Row(status: string, indexKey: string, indexSort: string, vertical: string, awaiting: Option<bool>)

  function StatusKey(status: string): string {
    PREFIX + status
  }

  lemma {:induction false} StatusKeyInjective(a: string, b: string)
    ensures StatusKey(a) == StatusKey(b) ==> a == b
    ensures StatusKey(a) != REVIEWED_KEY
  {
    assert StatusKey(a)[|PREFIX|..] == a && StatusKey(b)[|PREFIX|..] == b;
    assert StatusKey(a)[0] == 'B' && REVIEWED_KEY[0] == 'R';
  }

  // ----- the writers -------------------------------------------------------------------

  datatype Step =
    | Discover(id: string, sort: string, vertical: string)
    | Qualify(id: string, qualified: bool, sort: string, awaiting: bool)
    | Promote(id: string)
    | MarkResponded(id: string)
    | TriageStatus(id: string, unsubscribed: bool)
    | Reclassify(id: string, sk: string, found: bool, category: string)

  function Apply(rows: map<string, Row>, step: Step): map<string, Row> {
    match step
    case Discover(id, sort, vertical) =>
      if id in rows then rows else rows[id := Row("new", StatusKey("new"), sort, vertical, None)]
    case Qualify(id, qualified, sort, awaiting) =>
      var status := if qualified then "qualified" else "rejected";
      if id !in rows then rows
      else
        rows[id := rows[id].(status := status, indexKey := StatusKey(status), indexSort := sort, awaiting := Some(awaiting))]
    case Promote(id) =>
      if id in rows && rows[id].awaiting == Some(true) then rows[id := rows[id].(awaiting := Some(false))] else rows
    case MarkResponded(id) => Guarded(rows, id, "responded")
    case TriageStatus(id, unsubscribed) => Guarded(rows, id, if unsubscribed then "rejected_after_review" else "responded")
    case Reclassify(id, sk, found, category) =>
      // The client hands back the reference it was listed; the row it names is updated if present.
      if (if sk == "PROFILE" then id !in rows else !found) then rows
      else Reapplied(if sk == "PROFILE" then Marked(rows, id) else rows, id, category)
  }

  /** The update of a row the reference names, here a business's own. */
  function Marked(rows: map<string, Row>, id: string): map<string, Row>
    requires id in rows
  {
    rows[id := rows[id].(indexKey := REVIEWED_KEY)]
  }

  /** The category's side-effect on the business. */
  function Reapplied(rows: map<string, Row>, id: string, category: string): map<string, Row> {
    if category == "unsubscribe" then Guarded(rows, id, "rejected_after_review")
    else if category == "positive_interest" then Guarded(rows, id, "responded")
    else rows
  }

  /** `attribute_exists(pk) AND #s <> :converted`. */
  function Guarded(rows: map<string, Row>, id: string, status: string): map<string, Row> {
    if id in rows && rows[id].status != "converted" then
      rows[id := rows[id].(status := status, indexKey := StatusKey(status))]
    else rows
  }

  function Run(rows: map<string, Row>, steps: seq<Step>): map<string, Row> {
    if steps == [] then rows else Apply(Run(rows, steps[..|steps| - 1]), steps[|steps| - 1])
  }

  predicate IndexOk(rows: map<string, Row>) {
    forall id :: id in rows ==> rows[id].indexKey == StatusKey(rows[id].status)
  }

  /** A reference listed by the API names a ReplyTriage row, whose sort key is not a profile's. */
  predicate Listed(step: Step) {
    step.Reclassify? ==> step.sk != "PROFILE"
  }

  /** The categories after which reclassification writes status and key once more. */
  predicate RewritesStatus(rows: map<string, Row>, step: Step) {
    && step.Reclassify? && step.id in rows && rows[step.id].status != "converted"
    && (step.category == "unsubscribe" || step.category == "positive_interest")
  }

  /**
   * A write keeps the index in step with the statuses exactly unless it reclassifies by a
   * reference to a Business row itself, with a category that does not rewrite the status.
   */
  lemma {:induction false} StepKeepsIndex(rows: map<string, Row>, step: Step)
    requires IndexOk(rows)
    ensures IndexOk(Apply(rows, step)) <==> Listed(step) || step.id !in rows || RewritesStatus(rows, step)
  {
    if step.Reclassify? && step.id in rows {
      StatusKeyInjective(rows[step.id].status, "");
      var t := Apply(rows, step);
      assert step.id in t;
    }
  }

  /** The row, if there is one, is listed under its own status. */
  predicate RowListed(rows: map<string, Row>, id: string) {
    id in rows ==> rows[id].indexKey == StatusKey(rows[id].status)
  }

  /** A reclassification by a reference to this very row that does not rewrite its status. */
  predicate Breaks(rows: map<string, Row>, step: Step, id: string) {
    step.id == id && id in rows && !Listed(step) && !RewritesStatus(rows, step)
  }

  /** The step writes this row's status and key together. */
  predicate Rewrites(rows: map<string, Row>, step: Step, id: string) {
    step.id == id && id in rows &&
    match step
    case Qualify(_, _, _, _) => true
    case MarkResponded(_) => rows[id].status != "converted"
    case TriageStatus(_, _) => rows[id].status != "converted"
    case Reclassify(_, sk, found, _) => RewritesStatus(rows, step) && (sk == "PROFILE" || found)
    case _ => false
  }

  lemma {:induction false} RowListedNext(rows: map<string, Row>, step: Step, id: string)
    ensures RowListed(Apply(rows, step), id) <==>
            !Breaks(rows, step, id) && (Rewrites(rows, step, id) || RowListed(rows, id))
  {
    if step.Reclassify? && step.id == id && id in rows {
      StatusKeyInjective(rows[id].status, "");
    }
  }

  /** Step j takes the row out of its status, and no later step writes status and key together. */
  ghost predicate BrokenAt(rows: map<string, Row>, steps: seq<Step>, id: string, j: nat)
    requires j < |steps|
  {
    && Breaks(Run(rows, steps[..j]), steps[j], id)
    && forall k :: j < k < |steps| ==> !Rewrites(Run(rows, steps[..k]), steps[k], id)
  }

  ghost predicate Broken(rows: map<string, Row>, steps: seq<Step>, id: string) {
    exists j :: 0 <= j < |steps| && BrokenAt(rows, steps, id, j)
  }

  lemma {:induction false} BrokenNext(rows: map<string, Row>, steps: seq<Step>, step: Step, id: string)
    ensures Broken(rows, steps + [step], id) <==>
            Breaks(Run(rows, steps), step, id) || (Broken(rows, steps, id) && !Rewrites(Run(rows, steps), step, id))
  {
    var all := steps + [step];
    assert forall i :: 0 <= i <= |steps| ==> all[..i] == steps[..i];
    assert steps[..|steps|] == steps && all[|steps|] == step;
    forall j | 0 <= j < |steps|
      ensures BrokenAt(rows, all, id, j) <==> BrokenAt(rows, steps, id, j) && !Rewrites(Run(rows, steps), step, id)
    {
    }
    assert BrokenAt(rows, all, id, |steps|) <==> Breaks(Run(rows, steps), step, id);
  }

  lemma {:induction false} ListedExactly(rows: map<string, Row>, steps: seq<Step>, id: string)
    requires RowListed(rows, id)
    ensures RowListed(Run(rows, steps), id) <==> !Broken(rows, steps, id)
  {
    if steps != [] {
      var before, step := steps[..|steps| - 1], steps[|steps| - 1];
      assert steps == before + [step];
      ListedExactly(rows, before, id);
      BrokenNext(rows, before, step, id);
      RowListedNext(Run(rows, before), step, id);
    }
  }

  /**
   * After any run each Business row is listed under its own status if and only if no
   * reclassification by a reference to a Business row took one out that no later write put back.
   */
  lemma {:induction false} IndexNamesStatus(rows: map<string, Row>, steps: seq<Step>)
    requires IndexOk(rows)
    ensures IndexOk(Run(rows, steps)) <==> forall id :: !Broken(rows, steps, id)
  {
    var r := Run(rows, steps);
    forall id ensures RowListed(r, id) <==> !Broken(rows, steps, id) {
      ListedExactly(rows, steps, id);
    }
    if !IndexOk(r) {
      var id :| id in r && r[id].indexKey != StatusKey(r[id].status);
      assert !RowListed(r, id);
    }
  }

  /** References as the API lists them never do. */
  lemma {:induction false} ListedReferencesKeepIndex(rows: map<string, Row>, steps: seq<Step>)
    requires IndexOk(rows) && forall k :: 0 <= k < |steps| ==> Listed(steps[k])
    ensures IndexOk(Run(rows, steps))
  {
    if steps != [] {
      ListedReferencesKeepIndex(rows, steps[..|steps| - 1]);
      StepKeepsIndex(Run(rows, steps[..|steps| - 1]), steps[|steps| - 1]);
    }
  }

  /** Reply writers and the promoter never move a converted business, nor lose it. */
  lemma {:induction false} ConvertedStays(rows: map<string, Row>, steps: seq<Step>, id: string)
    requires id in rows && rows[id].status == "converted"
    requires forall k :: 0 <= k < |steps| ==> !steps[k].Qualify? || steps[k].id != id
    ensures id in Run(rows, steps) && Run(rows, steps)[id].status == "converted"
  {
    if steps != [] {
      ConvertedStays(rows, steps[..|steps| - 1], id);
    }
  }

  /** The guard is the reply writers' only: a qualification does move it. */
  lemma QualifyMovesConverted(rows: map<string, Row>, id: string, qualified: bool, sort: string, awaiting: bool)
    requires id in rows && rows[id].status == "converted"
    ensures Apply(rows, Qualify(id, qualified, sort, awaiting))[id].status != "converted"
  {
    var t := Apply(rows, Qualify(id, qualified, sort, awaiting));
    assert t[id].status == if qualified then "qualified" else "rejected";
    assert |"qualified"| == 9 && "qualified"[0] == 'q' && "rejected"[0] == 'r' && "converted"[0] == 'c';
  }

  // ----- counting through the index -------------------------------------------------------

  predicate Distinct<T(==)>(s: seq<T>) {
    forall i, j :: 0 <= i < j < |s| ==> s[i] != s[j]
  }

  /** The pages of one index query: every row under the key once, in whatever order and split. */
  ghost predicate Lists(pages: seq<seq<string>>, rows: map<string, Row>, status: string) {
    && Distinct(Flatten(pages))
    && forall id :: id in Flatten(pages) <==> id in rows && rows[id].indexKey == StatusKey(status)
  }

  /** `attribute_not_exists(awaitingPromotion) OR awaitingPromotion = :false`. */
  predicate Counts(row: Row, excludeBacklogged: bool) {
    !excludeBacklogged || row.awaiting != Some(true)
  }

  /** What the filter lets through. */
  function Passing(rows: map<string, Row>, excludeBacklogged: bool): set<string> {
    set id | id in rows && Counts(rows[id], excludeBacklogged)
  }

  function CountKept(ids: seq<string>, keep: set<string>): nat {
    if ids == [] then 0 else CountKept(ids[..|ids| - 1], keep) + if ids[|ids| - 1] in keep then 1 else 0
  }

  lemma {:induction false} CountAppend(a: seq<string>, b: seq<string>, keep: set<string>)
    ensures CountKept(a + b, keep) == CountKept(a, keep) + CountKept(b, keep)
  {
    if b == [] {
      assert a + b == a;
    } else {
      CountAppend(a, b[..|b| - 1], keep);
      assert (a + b)[..|a + b| - 1] == a + b[..|b| - 1];
    }
  }

  function Members(ids: seq<string>): set<string> {
    set id | id in ids
  }

  lemma {:induction false} MembersNext(front: seq<string>, last: string, keep: set<string>)
    requires last !in front
    ensures Members(front + [last]) * keep == if last in keep then Members(front) * keep + {last} else Members(front) * keep
    ensures last !in Members(front) * keep
  {
  }

  /** Counting a listing without repeats counts a set. */
  lemma {:induction false} CountIsCard(ids: seq<string>, keep: set<string>)
    requires Distinct(ids)
    ensures CountKept(ids, keep) == |Members(ids) * keep|
  {
    if ids != [] {
      var front, last := ids[..|ids| - 1], ids[|ids| - 1];
      CountIsCard(front, keep);
      assert ids == front + [last];
      MembersNext(front, last, keep);
    }
  }

  /** The businesses of a status, read off the base table. */
  function OfStatus(rows: map<string, Row>, status: string, excludeBacklogged: bool): set<string> {
    set id | id in rows && rows[id].status == status && Counts(rows[id], excludeBacklogged)
  }

  /** The pages list exactly the businesses of that status. */
  lemma {:induction false} ListedAreOfStatus(pages: seq<seq<string>>, rows: map<string, Row>, status: string)
    requires IndexOk(rows) && Lists(pages, rows, status)
    ensures Members(Flatten(pages)) == OfStatus(rows, status, false)
  {
    forall id | id in rows ensures rows[id].indexKey == StatusKey(status) <==> rows[id].status == status {
      StatusKeyInjective(rows[id].status, status);
    }
  }

  /** However a listing is split into pages, it counts the base table. */
  lemma {:induction false} PagesCountTable(
      pages: seq<seq<string>>, rows: map<string, Row>, status: string, excludeBacklogged: bool)
    requires IndexOk(rows) && Lists(pages, rows, status)
    ensures CountKept(Flatten(pages), Passing(rows, excludeBacklogged)) == |OfStatus(rows, status, excludeBacklogged)|
  {
    CountIsCard(Flatten(pages), Passing(rows, excludeBacklogged));
    ListedAreOfStatus(pages, rows, status);
    assert OfStatus(rows, status, false) * Passing(rows, excludeBacklogged) == OfStatus(rows, status, excludeBacklogged);
  }

  // ----- per-vertical counts ---------------------------------------------------------------

  function At(m: map<string, nat>, v: string): nat {
    if v in m then m[v] else 0
  }

  /** The sum of m over `keys`. */
  ghost function Total(m: map<string, nat>, keys: set<string>): nat {
    if keys == {} then 0
    else
      var k :| k in keys;
      At(m, k) + Total(m, keys - {k})
  }

  /** The sum does not depend on which key is taken first. */
  lemma {:induction false} TotalTake(m: map<string, nat>, keys: set<string>, k: string)
    requires k in keys
    ensures Total(m, keys) == At(m, k) + Total(m, keys - {k})
    decreases |keys|
  {
    var j :| j in keys && Total(m, keys) == At(m, j) + Total(m, keys - {j});
    if j != k {
      TotalTake(m, keys - {j}, k);
      TotalTake(m, keys - {k}, j);
      assert keys - {j} - {k} == keys - {k} - {j};
    }
  }

  lemma {:induction false} TotalAgree(m: map<string, nat>, n: map<string, nat>, keys: set<string>)
    requires forall k :: k in keys ==> At(m, k) == At(n, k)
    ensures Total(m, keys) == Total(n, keys)
    decreases |keys|
  {
    if keys != {} {
      var k :| k in keys;
      TotalTake(m, keys, k);
      TotalTake(n, keys, k);
      TotalAgree(m, n, keys - {k});
    }
  }

  /** Keys where m is zero add nothing. */
  lemma {:induction false} TotalWiden(m: map<string, nat>, keys: set<string>, wider: set<string>)
    requires keys <= wider && forall k :: k in wider - keys ==> At(m, k) == 0
    ensures Total(m, wider) == Total(m, keys)
    decreases |wider - keys|
  {
    if wider <= keys {
      assert wider == keys;
    } else {
      var k :| k in wider && k !in keys;
      TotalTake(m, wider, k);
      assert (wider - {k}) - keys == (wider - keys) - {k};
      TotalWiden(m, keys, wider - {k});
    }
  }

  lemma {:induction false} TotalAdd(m: map<string, nat>, v: string, amount: nat)
    ensures var n := m[v := At(m, v) + amount];
            Total(n, n.Keys) == Total(m, m.Keys) + amount
  {
    var n := m[v := At(m, v) + amount];
    TotalTake(n, n.Keys, v);
    TotalAgree(m, n, n.Keys - {v});
    if v in m {
      TotalTake(m, m.Keys, v);
      assert n.Keys - {v} == m.Keys - {v};
    } else {
      assert n.Keys - {v} == m.Keys;
    }
  }

  function Bucket(row: Row): string {
    if row.vertical == "" then "default" else row.vertical
  }

  function InVertical(rows: map<string, Row>, v: string): set<string> {
    set id | id in rows && Bucket(rows[id]) == v
  }

  /** What statusBreakdown returns for one status. */
  datatype Breakdown = Breakdown(total: nat, byVertical: map<string, nat>)

  /** The total and the split are those of the base table, and the split sums to the total. */
  ghost predicate Agrees(b: Breakdown, rows: map<string, Row>, status: string) {
    && b.total == |OfStatus(rows, status, false)|
    && b.total == Total(b.byVertical, b.byVertical.Keys)
    && forall v :: At(b.byVertical, v) == |OfStatus(rows, status, false) * InVertical(rows, v)|
  }

  /** The loop's accounts of the ids seen so far. */
  ghost predicate Tallied(total: nat, byVertical: map<string, nat>, ids: seq<string>, rows: map<string, Row>) {
    && total == |ids| == Total(byVertical, byVertical.Keys)
    && forall v :: At(byVertical, v) == CountKept(ids, InVertical(rows, v))
  }

  lemma {:induction false} TallyOne(total: nat, byVertical: map<string, nat>, ids: seq<string>, id: string, rows: map<string, Row>)
    requires Tallied(total, byVertical, ids, rows) && id in rows
    ensures var v := Bucket(rows[id]);
            Tallied(total + 1, byVertical[v := At(byVertical, v) + 1], ids + [id], rows)
  {
    TotalAdd(byVertical, Bucket(rows[id]), 1);
    assert (ids + [id])[..|ids|] == ids;
  }

  lemma {:induction false} BreakdownAgrees(pages: seq<seq<string>>, rows: map<string, Row>, status: string, b: Breakdown)
    requires IndexOk(rows) && Lists(pages, rows, status)
    requires Tallied(b.total, b.byVertical, Flatten(pages), rows)
    ensures Agrees(b, rows, status)
  {
    var ids := Flatten(pages);
    ListedAreOfStatus(pages, rows, status);
    DistinctCard(ids);
    forall v ensures At(b.byVertical, v) == |OfStatus(rows, status, false) * InVertical(rows, v)| {
      CountIsCard(ids, InVertical(rows, v));
    }
  }

  lemma {:induction false} DistinctCard(ids: seq<string>)
    requires Distinct(ids)
    ensures |Members(ids)| == |ids|
  {
    CountIsCard(ids, Members(ids));
    AllCount(ids, Members(ids));
    assert Members(ids) * Members(ids) == Members(ids);
  }

  lemma {:induction false} AllCount(ids: seq<string>, keep: set<string>)
    requires forall id :: id in ids ==> id in keep
    ensures CountKept(ids, keep) == |ids|
  {
    if ids != [] {
      AllCount(ids[..|ids| - 1], keep);
    }
  }

  const FUNNEL_STATUSES := [
    "new", "auditing", "qualified", "rejected",
    "awaiting_review", "approved", "regenerate_requested",
    "rejected_after_review", "email_drafted", "emailed",
    "responded", "converted"
  ]

  const SEEDED_VERTICALS := {"default", "accountants"}

  /** One vertical's cell of the snapshot. */
  function Cell(perVertical: map<string, map<string, nat>>, v: string, status: string): nat {
    if v in perVertical then At(perVertical[v], status) else 0
  }

  /** One status's column of the snapshot. */
  function Column(perVertical: map<string, map<string, nat>>, status: string): map<string, nat> {
    map v | v in perVertical :: Cell(perVertical, v, status)
  }

  /** The column holds the breakdown, cell by cell. */
  ghost predicate Holds(perVertical: map<string, map<string, nat>>, status: string, byVertical: map<string, nat>) {
    forall v :: Cell(perVertical, v, status) == At(byVertical, v)
  }

  /** A funnel figure is the sum of its per-vertical cells. */
  lemma {:induction false} FunnelIsSumOfCells(perVertical: map<string, map<string, nat>>, status: string, b: Breakdown)
    requires Holds(perVertical, status, b.byVertical) && b.byVertical.Keys <= perVertical.Keys
    requires b.total == Total(b.byVertical, b.byVertical.Keys)
    ensures b.total == Total(Column(perVertical, status), perVertical.Keys)
  {
    TotalWiden(b.byVertical, b.byVertical.Keys, perVertical.Keys);
    TotalAgree(b.byVertical, Column(perVertical, status), perVertical.Keys);
  }

  /** What has been added to a cell while the keys `left` remain. */
  function Added(status: string, byVertical: map<string, nat>, left: set<string>, v: string, s: string): nat {
    if s == status && v in byVertical && v !in left then byVertical[v] else 0
  }

  ghost predicate SplitAdded(
      before: map<string, map<string, nat>>, after: map<string, map<string, nat>>,
      status: string, byVertical: map<string, nat>, left: set<string>)
  {
    && after.Keys == before.Keys + (byVertical.Keys - left)
    && forall v, s :: Cell(after, v, s) == Cell(before, v, s) + Added(status, byVertical, left, v, s)
  }

  /** `ensure(v).Funnel[status] += n`: the vertical's block is made when first needed. */
  function Bumped(m: map<string, map<string, nat>>, v: string, status: string, n: nat): map<string, map<string, nat>> {
    var block := if v in m then m[v] else map[];
    m[v := block[status := At(block, status) + n]]
  }

  lemma {:induction false} SplitStart(before: map<string, map<string, nat>>, status: string, byVertical: map<string, nat>)
    ensures SplitAdded(before, before, status, byVertical, byVertical.Keys)
  {
  }

  lemma {:induction false} SplitStep(
      before: map<string, map<string, nat>>, m: map<string, map<string, nat>>,
      status: string, byVertical: map<string, nat>, left: set<string>, v: string)
    requires SplitAdded(before, m, status, byVertical, left)
    requires v in left && v in byVertical
    ensures SplitAdded(before, Bumped(m, v, status, byVertical[v]), status, byVertical, left - {v})
  {
    var after := Bumped(m, v, status, byVertical[v]);
    forall w, s
      ensures Cell(after, w, s) == Cell(before, w, s) + Added(status, byVertical, left - {v}, w, s)
    {
      assert Cell(m, w, s) == Cell(before, w, s) + Added(status, byVertical, left, w, s);
    }
  }

  class BusinessTable {
    var rows: map<string, Row>

    constructor ()
      ensures rows == map[]
    {
      rows := map[];
    }

    method WriteBusiness(id: string, sort: string, vertical: string)
      modifies this
      ensures rows == if id in old(rows) then old(rows)
                      else old(rows)[id := Row("new", "BUSINESS#STATUS#new", sort, vertical, None)]
      ensures rows == Apply(old(rows), Discover(id, sort, vertical))
    {
      if id in rows {
        return;
      }
      rows := rows[id := Row("new", "BUSINESS#STATUS#new", sort, vertical, None)];
      assert "BUSINESS#STATUS#new" == StatusKey("new");
    }

    method UpdateBusinessStatus(id: string, qualified: bool, sort: string, awaiting: bool)
      modifies this
      ensures var status := if qualified then "qualified" else "rejected";
              rows == if id !in old(rows) then old(rows)
                      else old(rows)[id := Row(status, "BUSINESS#STATUS#" + status, sort, old(rows)[id].vertical, Some(awaiting))]
      ensures rows == Apply(old(rows), Qualify(id, qualified, sort, awaiting))
    {
      var newStatus := "rejected";
      if qualified {
        newStatus := "qualified";
      }
      if id !in rows {
        return;
      }
      rows := rows[id := Row(newStatus, "BUSINESS#STATUS#" + newStatus, sort, rows[id].vertical, Some(awaiting))];
    }

    method ClearAwaitingPromotion(id: string)
      modifies this
      ensures rows == if id in old(rows) && old(rows)[id].awaiting == Some(true)
                      then old(rows)[id := old(rows)[id].(awaiting := Some(false))] else old(rows)
      ensures rows == Apply(old(rows), Promote(id))
    {
      if id in rows && rows[id].awaiting == Some(true) {
        rows := rows[id := rows[id].(awaiting := Some(false))];
      }
    }

    /** The reply detector's stamp. */
    method MarkReplied(id: string)
      modifies this
      ensures rows == if id in old(rows) && old(rows)[id].status != "converted"
                      then old(rows)[id := old(rows)[id].(status := "responded", indexKey := "BUSINESS#STATUS#" + "responded")]
                      else old(rows)
      ensures rows == Apply(old(rows), MarkResponded(id))
    {
      SetStatus(id, "responded");
    }

    /** The triage's: a confident classification of an attributed reply writes a status, anything else none. */
    method TriageReply(id: Option<string>, category: string, confidence: real)
      modifies this
      ensures var to := if category == "unsubscribe" && confidence >= 0.8 then Some("rejected_after_review")
                        else if category == "positive_interest" && confidence >= 0.6 then Some("responded")
                        else None;
              && rows == (if to.Some? && id.Some? && id.value in old(rows) && old(rows)[id.value].status != "converted" then
                            old(rows)[id.value := old(rows)[id.value].(status := to.value, indexKey := "BUSINESS#STATUS#" + to.value)]
                          else old(rows))
              && (to.Some? && id.Some? ==>
                    rows == Apply(old(rows), TriageStatus(id.value, category == "unsubscribe")))
    {
      if category == "unsubscribe" && confidence >= 0.8 {
        if id.Some? {
          SetStatus(id.value, "rejected_after_review");
        }
      } else if category == "positive_interest" && confidence >= 0.6 {
        if id.Some? {
          SetStatus(id.value, "responded");
        }
      }
    }

    /** markResponded, and setStatus of the triage and of the replies API. */
    method SetStatus(id: string, status: string)
      modifies this
      ensures rows == if id in old(rows) && old(rows)[id].status != "converted"
                      then old(rows)[id := old(rows)[id].(status := status, indexKey := "BUSINESS#STATUS#" + status)]
                      else old(rows)
      ensures rows == Guarded(old(rows), id, status)
    {
      if id !in rows || rows[id].status == "converted" {
        return;
      }
      rows := rows[id := rows[id].(status := status, indexKey := "BUSINESS#STATUS#" + status)];
    }

    /**
     * `ref` is the decoded reference, if it decodes; `found` whether a ReplyTriage row it names
     * is there. Only references under a business key have a status to re-apply.
     */
    method HandleReclassify(ref: Option<(string, string)>, pathId: string, category: string, found: bool)
      returns (r: Reply)
      modifies this
      ensures r == BadRequest <==>
                || (category != "unsubscribe" && category != "positive_interest" && category != "unknown")
                || ref.None?
                || (pathId != "" && !(|ref.value.1| >= |pathId| && ref.value.1[|ref.value.1| - |pathId|..] == pathId))
      // Each business the reference names gets the category's status, every other row stays.
      ensures r != Updated ==> rows == old(rows)
      ensures r == Updated ==>
                rows.Keys == old(rows).Keys &&
                forall id :: id in old(rows) ==>
                  if ref.value.0 == "BUSINESS#" + id then Reclassified(old(rows)[id], rows[id], ref.value.1, category)
                  else rows[id] == old(rows)[id]
      ensures r == Failed <==> r != BadRequest && !Present(old(rows), ref.value, found)
      ensures rows == if r == BadRequest then old(rows) else AfterReclassify(old(rows), ref.value, found, category)
    {
      if !ValidCategory(category) || ref.None? {
        return BadRequest;
      }
      var named := PathChecks(ref.value.1, pathId);
      if !named {
        return BadRequest;
      }
      var id := BusinessOf(ref.value.0);
      if id.None? {
        return if found then Updated else Failed;
      }
      assert ref.value.0 == "BUSINESS#" + id.value;
      OnlyBusinessOf(id.value);
      ReclassifyMeans(rows, id.value, ref.value.1, found, category);
      var ok := ReclassifyRow(id.value, ref.value.1, found, category);
      return if ok then Updated else Failed;
    }

    method PathChecks(sk: string, pathId: string) returns (ok: bool)
      ensures ok <==> NamesPath(sk, pathId)
    {
      HashedSuffix(sk, pathId);
      return !(pathId != "" && !HasSuffix(sk, "#" + pathId) && !HasSuffix(sk, pathId));
    }

    /** The update of the row, and the category's side-effect on its business. */
    method ReclassifyRow(id: string, sk: string, found: bool, category: string) returns (ok: bool)
      modifies this
      ensures rows == Apply(old(rows), Reclassify(id, sk, found, category))
      ensures ok <==> if sk == "PROFILE" then id in old(rows) else found
    {
      if sk == "PROFILE" {
        if id !in rows {
          return false;
        }
        rows := rows[id := rows[id].(indexKey := "REPLYTRIAGE#STATUS#reviewed")];
      } else if !found {
        return false;
      }
      ReapplyCategory(id, category);
      return true;
    }

    /** The status the classifier would have set for the category, if any. */
    method ReapplyCategory(id: string, category: string)
      modifies this
      ensures rows == Reapplied(old(rows), id, category)
    {
      if category == "unsubscribe" {
        SetStatus(id, "rejected_after_review");
      } else if category == "positive_interest" {
        SetStatus(id, "responded");
      }
    }
  }

  lemma {:induction false} ReclassifyFrame(rows: map<string, Row>, id: string, sk: string, found: bool, category: string)
    ensures var t := Apply(rows, Reclassify(id, sk, found, category));
            && t.Keys == rows.Keys && (forall other :: other in rows && other != id ==> t[other] == rows[other])
            && (sk != "PROFILE" && !found ==> t == rows)
  {
  }

  lemma {:induction false} ReappliedRow(rows: map<string, Row>, id: string, category: string)
    requires id in rows
    ensures var before, t := rows[id], Reapplied(rows, id, category);
            id in t &&
            t[id] == if category == "unsubscribe" && before.status != "converted" then
                       before.(status := "rejected_after_review", indexKey := "BUSINESS#STATUS#" + "rejected_after_review")
                     else if category == "positive_interest" && before.status != "converted" then
                       before.(status := "responded", indexKey := "BUSINESS#STATUS#" + "responded")
                     else before
  {
    assert |"unsubscribe"| == 11 && |"positive_interest"| == 17;
  }

  lemma {:induction false} ReclassifyNamed(rows: map<string, Row>, id: string, sk: string, found: bool, category: string)
    requires id in rows && (sk == "PROFILE" || found)
    ensures var t := Apply(rows, Reclassify(id, sk, found, category)); id in t && Reclassified(rows[id], t[id], sk, category)
  {
    ReappliedRow(if sk == "PROFILE" then Marked(rows, id) else rows, id, category);
  }

  /** What a reclassification does to the rows. */
  lemma {:induction false} ReclassifyMeans(rows: map<string, Row>, id: string, sk: string, found: bool, category: string)
    ensures var t := Apply(rows, Reclassify(id, sk, found, category));
            && t.Keys == rows.Keys && (forall other :: other in rows && other != id ==> t[other] == rows[other])
            && if sk == "PROFILE" || found then id in rows ==> Reclassified(rows[id], t[id], sk, category) else t == rows
  {
    ReclassifyFrame(rows, id, sk, found, category);
    if id in rows && (sk == "PROFILE" || found) {
      ReclassifyNamed(rows, id, sk, found, category);
    }
  }

  const BUSINESS := "BUSINESS#"

  lemma {:induction false} OnlyBusinessOf(id: string)
    ensures forall other :: "BUSINESS#" + other == "BUSINESS#" + id ==> other == id
  {
    forall other | "BUSINESS#" + other == "BUSINESS#" + id ensures other == id {
      assert ("BUSINESS#" + other)[9..] == other && ("BUSINESS#" + id)[9..] == id;
    }
  }

  /** An unsubscribe rejects the business and interest marks it as responded, unless it has converted; the row itself named is marked reviewed. */
  predicate Reclassified(before: Row, after: Row, sk: string, category: string) {
    && after.indexSort == before.indexSort && after.vertical == before.vertical && after.awaiting == before.awaiting
    && if category == "unsubscribe" && before.status != "converted" then
         after.status == "rejected_after_review" && after.indexKey == "BUSINESS#STATUS#" + "rejected_after_review"
       else if category == "positive_interest" && before.status != "converted" then
         after.status == "responded" && after.indexKey == "BUSINESS#STATUS#" + "responded"
       else
         after.status == before.status
         && after.indexKey == if sk == "PROFILE" then "REPLYTRIAGE#STATUS#reviewed" else before.indexKey
  }

  datatype Reply = Updated | BadRequest | Failed

  predicate ValidCategory(category: string) {
    category == "unsubscribe" || category == "positive_interest" || category == "unknown"
  }

  predicate HasSuffix(s: string, suffix: string) {
    |s| >= |suffix| && s[|s| - |suffix|..] == suffix
  }

  lemma {:induction false} HashedSuffix(s: string, id: string)
    ensures HasSuffix(s, "#" + id) ==> HasSuffix(s, id)
  {
    if HasSuffix(s, "#" + id) {
      assert s[|s| - |id|..] == s[|s| - |id| - 1..][1..];
    }
  }

  /** The sort key belongs to the id in the request path, when one is there. */
  predicate NamesPath(sk: string, pathId: string) {
    pathId == "" || HasSuffix(sk, pathId)
  }

  /** strings.TrimPrefix, when there was a prefix. */
  function BusinessOf(pk: string): Option<string> {
    if BUSINESS <= pk then Some(pk[|BUSINESS|..]) else None
  }

  /** The row the reference names is there: a business's own row, or a ReplyTriage row. */
  predicate Present(rows: map<string, Row>, ref: (string, string), found: bool) {
    if BusinessOf(ref.0).Some? && ref.1 == "PROFILE" then BusinessOf(ref.0).value in rows else found
  }

  function AfterReclassify(rows: map<string, Row>, ref: (string, string), found: bool, category: string): map<string, Row> {
    if BusinessOf(ref.0).Some? then Apply(rows, Reclassify(BusinessOf(ref.0).value, ref.1, found, category)) else rows
  }

  /**
   * HandleReclassify accepts a reference to a Business row: path id "PROFILE" ends its sort key.
   * With a category that rewrites no status the row leaves its status's listing.
   */
  lemma {:induction false} AcceptedRequestBreaksIndex(rows: map<string, Row>, id: string, found: bool)
    requires id in rows
    ensures var ref := (BUSINESS + id, "PROFILE");
            && ValidCategory("unknown") && NamesPath(ref.1, "PROFILE") && Present(rows, ref, found)
            && !IndexOk(AfterReclassify(rows, ref, found, "unknown"))
  {
    var ref := (BUSINESS + id, "PROFILE");
    assert BusinessOf(ref.0) == Some(id);
    StatusKeyInjective(rows[id].status, "");
    var t := AfterReclassify(rows, ref, found, "unknown");
    assert t[id].indexKey == REVIEWED_KEY by {
      assert |"unknown"| == 7 && |"unsubscribe"| == 11 && |"positive_interest"| == 17;
    }
  }

  // ----- the readers ------------------------------------------------------------------------

  /** One index query: the table at its instant, and the pages it came in. */
  datatype Query = Query(seen: map<string, Row>, pages: seq<seq<string>>)

  ghost predicate Answered(q: Query, status: string) {
    IndexOk(q.seen) && Lists(q.pages, q.seen, status)
  }

  /** The server counts each page through the filter; the loop follows the page keys. */
  method CountByStatus(status: string, excludeBacklogged: bool, q: Query) returns (total: nat)
    requires Answered(q, status)
    ensures total == |set id | id in q.seen && q.seen[id].status == status
                               && (excludeBacklogged ==> q.seen[id].awaiting != Some(true))|
    ensures total == |OfStatus(q.seen, status, excludeBacklogged)|
  {
    var keep := Passing(q.seen, excludeBacklogged);
    total := 0;
    var page := 0;
    while page < |q.pages|
      invariant 0 <= page <= |q.pages|
      invariant total == CountKept(Flatten(q.pages[..page]), keep)
    {
      CountAppend(Flatten(q.pages[..page]), q.pages[page], keep);
      assert q.pages[..page + 1][..page] == q.pages[..page];
      total := total + CountKept(q.pages[page], keep);
      page := page + 1;
    }
    assert q.pages[..page] == q.pages;
    PagesCountTable(q.pages, q.seen, status, excludeBacklogged);
    assert OfStatus(q.seen, status, excludeBacklogged)
           == set id | id in q.seen && q.seen[id].status == status && (excludeBacklogged ==> q.seen[id].awaiting != Some(true));
  }

  /**
   * The slots in use: businesses awaiting review, and those qualified but not parked in the
   * backlog. Each query sees its own instant; the count is off from either instant's by at most
   * the number of businesses that changed in between, so exact when none did.
   */
  method CountActiveSlots(awaiting: Query, qualified: Query) returns (active: nat)
    requires Answered(awaiting, "awaiting_review") && Answered(qualified, "qualified")
    ensures active == |OfStatus(awaiting.seen, "awaiting_review", false)| + |OfStatus(qualified.seen, "qualified", true)|
    ensures -|Changed(awaiting.seen, qualified.seen)| <= active - |ActiveIn(qualified.seen)| <= |Changed(awaiting.seen, qualified.seen)|
    ensures -|Changed(awaiting.seen, qualified.seen)| <= active - |ActiveIn(awaiting.seen)| <= |Changed(awaiting.seen, qualified.seen)|
    ensures awaiting.seen == qualified.seen ==> active == |ActiveIn(awaiting.seen)|
  {
    var waiting := CountByStatus("awaiting_review", false, awaiting);
    var open := CountByStatus("qualified", true, qualified);
    active := waiting + open;
    ActiveSplits(awaiting.seen);
    ActiveSplits(qualified.seen);
    CountsDrift(awaiting.seen, qualified.seen, "awaiting_review", false);
    CountsDrift(awaiting.seen, qualified.seen, "qualified", true);
  }

  /** One page of a status, item by item. */
  method TallyPage(rows: map<string, Row>, items: seq<string>, before: Breakdown, ghost earlier: seq<string>)
    returns (b: Breakdown)
    requires forall id :: id in items ==> id in rows
    requires Tallied(before.total, before.byVertical, earlier, rows)
    ensures Tallied(b.total, b.byVertical, earlier + items, rows)
  {
    var total, byVertical: map<string, nat> := before.total, before.byVertical;
    var at := 0;
    assert earlier + items[..0] == earlier;
    while at < |items|
      invariant 0 <= at <= |items|
      invariant Tallied(total, byVertical, earlier + items[..at], rows)
    {
      var v := Bucket(rows[items[at]]);
      TallyOne(total, byVertical, earlier + items[..at], items[at], rows);
      assert earlier + items[..at + 1] == (earlier + items[..at]) + [items[at]];
      byVertical := byVertical[v := At(byVertical, v) + 1];
      total := total + 1;
      at := at + 1;
    }
    assert items[..at] == items;
    b := Breakdown(total, byVertical);
  }

  /** The split's cells, read off the rows: a business without a vertical counts as "default". */
  lemma {:induction false} SplitMeans(rows: map<string, Row>, status: string)
    ensures OfStatus(rows, status, false) == set id | id in rows && rows[id].status == status
    ensures forall v :: v != "" && v != "default" ==>
              OfStatus(rows, status, false) * InVertical(rows, v)
              == set id | id in rows && rows[id].status == status && rows[id].vertical == v
    ensures OfStatus(rows, status, false) * InVertical(rows, "") == {}
    ensures OfStatus(rows, status, false) * InVertical(rows, "default")
            == set id | id in rows && rows[id].status == status && rows[id].vertical in ["", "default"]
  {
  }

  method StatusBreakdown(status: string, q: Query) returns (b: Breakdown)
    requires Answered(q, status)
    ensures b.total == |set id | id in q.seen && q.seen[id].status == status|
    ensures forall v :: v != "" && v != "default" ==>
              At(b.byVertical, v) == |set id | id in q.seen && q.seen[id].status == status && q.seen[id].vertical == v|
    ensures At(b.byVertical, "") == 0
    ensures At(b.byVertical, "default")
            == |set id | id in q.seen && q.seen[id].status == status && q.seen[id].vertical in ["", "default"]|
    ensures Agrees(b, q.seen, status)
  {
    b := Breakdown(0, map[]);
    var page := 0;
    while page < |q.pages|
      invariant 0 <= page <= |q.pages|
      invariant Tallied(b.total, b.byVertical, Flatten(q.pages[..page]), q.seen)
    {
      PageIsListed(q.pages, page);
      b := TallyPage(q.seen, q.pages[page], b, Flatten(q.pages[..page]));
      page := page + 1;
    }
    assert q.pages[..page] == q.pages;
    BreakdownAgrees(q.pages, q.seen, status, b);
    SplitMeans(q.seen, status);
  }

  /** Adds one status's split into the per-vertical blocks. */
  method AddSplit(before: map<string, map<string, nat>>, status: string, byVertical: map<string, nat>)
    returns (perVertical: map<string, map<string, nat>>)
    ensures SplitAdded(before, perVertical, status, byVertical, {})
  {
    perVertical := before;
    var left := byVertical.Keys;
    SplitStart(before, status, byVertical);
    while left != {}
      invariant left <= byVertical.Keys
      invariant SplitAdded(before, perVertical, status, byVertical, left)
      decreases |left|
    {
      var v :| v in left;
      SplitStep(before, perVertical, status, byVertical, left, v);
      perVertical := Bumped(perVertical, v, status, byVertical[v]);
      left := left - {v};
    }
  }

  /** Queries each status, at its own instant, and fills the two halves of the snapshot. */
  method FillFunnel(statuses: seq<string>, queries: map<string, Query>, seeded: map<string, map<string, nat>>)
    returns (funnel: map<string, nat>, perVertical: map<string, map<string, nat>>, ghost splits: map<string, Breakdown>)
    requires Distinct(statuses)
    requires forall s :: s in statuses ==> s in queries && Answered(queries[s], s)
    requires forall v, s :: Cell(seeded, v, s) == 0
    ensures seeded.Keys <= perVertical.Keys
    ensures FunnelFilled(queries, funnel, perVertical, splits, statuses)
  {
    funnel, perVertical, splits := map[], seeded, map[];
    var i := 0;
    FunnelStart(queries, seeded);
    while i < |statuses|
      invariant 0 <= i <= |statuses|
      invariant seeded.Keys <= perVertical.Keys
      invariant FunnelFilled(queries, funnel, perVertical, splits, statuses[..i])
    {
      var status := statuses[i];
      var b := StatusBreakdown(status, queries[status]);
      var filled := AddSplit(perVertical, status, b.byVertical);
      NotYetDone(statuses, i);
      FunnelStep(queries, funnel, perVertical, splits, statuses[..i], status, b, filled);
      funnel := funnel[status := b.total];
      splits := splits[status := b];
      perVertical := filled;
      i := i + 1;
    }
    assert statuses[..i] == statuses;
  }

  /** A ledger row of the day: its stage, possibly unset, and its spend in micro-dollars. */
  datatype CostRecord = CostRecord(stage: string, spent: nat)

  /** A stage's spend over these rows. */
  function StageSpend(records: seq<CostRecord>, stage: string): nat {
    if records == [] then 0
    else
      var last := records[|records| - 1];
      StageSpend(records[..|records| - 1], stage) + if last.stage == stage then last.spent else 0
  }

  /** The spend of all rows that name a stage. */
  function NamedSpend(records: seq<CostRecord>): nat {
    if records == [] then 0
    else
      var last := records[|records| - 1];
      NamedSpend(records[..|records| - 1]) + if last.stage != "" then last.spent else 0
  }

  /** costForDate, and the total the roll-up adds up from it. */
  method CostForDate(records: seq<CostRecord>) returns (byStage: map<string, nat>, total: nat)
    ensures "" !in byStage
    ensures forall stage :: stage != "" ==> At(byStage, stage) == StageSpend(records, stage)
    ensures total == NamedSpend(records)
  {
    byStage := map[];
    for i := 0 to |records|
      invariant "" !in byStage
      invariant forall stage :: stage != "" ==> At(byStage, stage) == StageSpend(records[..i], stage)
      invariant Total(byStage, byStage.Keys) == NamedSpend(records[..i])
    {
      assert records[..i + 1][..i] == records[..i];
      var r := records[i];
      if r.stage != "" {
        TotalAdd(byStage, r.stage, r.spent);
        byStage := byStage[r.stage := At(byStage, r.stage) + r.spent];
      }
    }
    assert records[..|records|] == records;
    total := 0;
    var left := byStage.Keys;
    while left != {}
      invariant left <= byStage.Keys && total + Total(byStage, left) == NamedSpend(records)
      decreases |left|
    {
      var stage :| stage in left;
      TotalTake(byStage, left, stage);
      total := total + byStage[stage];
      left := left - {stage};
    }
  }

  datatype Snapshot = Snapshot(
    funnel: map<string, nat>,
    perVertical: map<string, map<string, nat>>,
    styleVersions: map<string, nat>,
    toneVersions: map<string, nat>,
    costByStage: map<string, nat>,
    totalCost: nat)

  /** A vertical without a guide counts as version 0. */
  function VersionsOf(verticals: set<string>, stored: map<string, nat>): map<string, nat> {
    map v | v in verticals :: At(stored, v)
  }

  /**
   * The daily snapshot: every funnel figure counts the table at its query's instant and is the sum
   * of its cells, each of which counts its vertical; every vertical listed has its two profile
   * versions, and the costs add up. A failing read or write leaves no snapshot.
   */
  method Rollup(queries: map<string, Query>, styles: map<string, nat>, tones: map<string, nat>, records: seq<CostRecord>,
                fails: bool)
    returns (r: Option<Snapshot>)
    requires forall s :: s in FUNNEL_STATUSES ==> s in queries && Answered(queries[s], s)
    ensures r.None? <==> fails
    ensures r.Some? ==> SEEDED_VERTICALS <= r.value.perVertical.Keys && FunnelRight(r.value, queries)
    ensures r.Some? ==> VersionsRight(r.value, styles, tones) && CostsRight(r.value, records)
  {
    if fails {
      return None;
    }
    FunnelDistinct();
    var seeded: map<string, map<string, nat>> := map v | v in SEEDED_VERTICALS :: map[];
    var funnel, perVertical;
    ghost var splits;
    funnel, perVertical, splits := FillFunnel(FUNNEL_STATUSES, queries, seeded);
    var byStage, total := CostForDate(records);
    var snapshot := Snapshot(funnel, perVertical, VersionsOf(perVertical.Keys, styles), VersionsOf(perVertical.Keys, tones),
                             byStage, total);
    FunnelIsRight(FUNNEL_STATUSES, queries, snapshot, splits);
    return Some(snapshot);
  }

  ghost predicate FunnelRightFor(snapshot: Snapshot, queries: map<string, Query>, s: string)
    requires s in queries
  {
    && s in snapshot.funnel
    && snapshot.funnel[s] == |OfStatus(queries[s].seen, s, false)|
    && snapshot.funnel[s] == Total(Column(snapshot.perVertical, s), snapshot.perVertical.Keys)
    && CellsCount(snapshot.perVertical, queries[s].seen, s)
  }

  ghost predicate FunnelRight(snapshot: Snapshot, queries: map<string, Query>) {
    forall s :: s in FUNNEL_STATUSES ==> s in queries && FunnelRightFor(snapshot, queries, s)
  }

  ghost predicate VersionsRight(snapshot: Snapshot, styles: map<string, nat>, tones: map<string, nat>) {
    && snapshot.styleVersions.Keys == snapshot.toneVersions.Keys == snapshot.perVertical.Keys
    && forall v :: v in snapshot.perVertical ==>
         snapshot.styleVersions[v] == At(styles, v) && snapshot.toneVersions[v] == At(tones, v)
  }

  ghost predicate CostsRight(snapshot: Snapshot, records: seq<CostRecord>) {
    && snapshot.totalCost == NamedSpend(records)
    && forall stage :: stage != "" ==> At(snapshot.costByStage, stage) == StageSpend(records, stage)
  }

  lemma {:induction false} FunnelIsRight(
      statuses: seq<string>, queries: map<string, Query>, snapshot: Snapshot, splits: map<string, Breakdown>)
    requires FunnelFilled(queries, snapshot.funnel, snapshot.perVertical, splits, statuses)
    ensures forall s :: s in statuses ==> s in queries && FunnelRightFor(snapshot, queries, s)
  {
    forall s | s in statuses ensures s in queries && FunnelRightFor(snapshot, queries, s) {
      assert Posted(queries, snapshot.funnel, snapshot.perVertical, splits, s);
      FunnelIsSumOfCells(snapshot.perVertical, s, splits[s]);
    }
  }

  /** Every cell of a column counts that status's businesses in that vertical. */
  ghost predicate CellsCount(perVertical: map<string, map<string, nat>>, rows: map<string, Row>, s: string) {
    forall v :: Cell(perVertical, v, s) == |OfStatus(rows, s, false) * InVertical(rows, v)|
  }

  predicate Active(row: Row) {
    row.status == "awaiting_review" || (row.status == "qualified" && row.awaiting != Some(true))
  }

  ghost predicate Posted(
      queries: map<string, Query>, funnel: map<string, nat>, perVertical: map<string, map<string, nat>>,
      splits: map<string, Breakdown>, s: string)
  {
    && s in funnel && s in splits && s in queries
    && Agrees(splits[s], queries[s].seen, s)
    && funnel[s] == splits[s].total
    && splits[s].byVertical.Keys <= perVertical.Keys
    && Holds(perVertical, s, splits[s].byVertical)
  }

  /** The statuses done so far are posted, the others' columns still empty. */
  ghost predicate FunnelFilled(
      queries: map<string, Query>, funnel: map<string, nat>, perVertical: map<string, map<string, nat>>,
      splits: map<string, Breakdown>, done: seq<string>)
  {
    && (forall s :: s in done ==> Posted(queries, funnel, perVertical, splits, s))
    && forall v, s :: s !in done ==> Cell(perVertical, v, s) == 0
  }

  lemma {:induction false} FunnelStart(queries: map<string, Query>, seeded: map<string, map<string, nat>>)
    requires forall v, s :: Cell(seeded, v, s) == 0
    ensures FunnelFilled(queries, map[], seeded, map[], [])
  {
  }

  lemma {:induction false} NotYetDone(statuses: seq<string>, i: nat)
    requires i < |statuses| && Distinct(statuses)
    ensures statuses[i] !in statuses[..i] && statuses[..i + 1] == statuses[..i] + [statuses[i]]
  {
  }

  lemma {:induction false} FunnelStep(
      queries: map<string, Query>, funnel: map<string, nat>, perVertical: map<string, map<string, nat>>,
      splits: map<string, Breakdown>, done: seq<string>, status: string, b: Breakdown, filled: map<string, map<string, nat>>)
    requires FunnelFilled(queries, funnel, perVertical, splits, done) && status !in done
    requires status in queries && Agrees(b, queries[status].seen, status) && SplitAdded(perVertical, filled, status, b.byVertical, {})
    ensures FunnelFilled(queries, funnel[status := b.total], filled, splits[status := b], done + [status])
  {
    forall s | s in done ensures Posted(queries, funnel[status := b.total], filled, splits[status := b], s) {
      assert Posted(queries, funnel, perVertical, splits, s);
      OtherColumns(perVertical, filled, status, b.byVertical, s);
    }
    OwnColumn(perVertical, filled, status, b.byVertical);
    assert Posted(queries, funnel[status := b.total], filled, splits[status := b], status);
    forall v, s | s !in done + [status] ensures Cell(filled, v, s) == 0 {
      OtherColumns(perVertical, filled, status, b.byVertical, s);
    }
  }

  lemma {:induction false} OtherColumns(
      m: map<string, map<string, nat>>, filled: map<string, map<string, nat>>,
      status: string, byVertical: map<string, nat>, s: string)
    requires SplitAdded(m, filled, status, byVertical, {}) && s != status
    ensures m.Keys <= filled.Keys && forall v :: Cell(filled, v, s) == Cell(m, v, s)
  {
  }

  lemma {:induction false} OwnColumn(
      m: map<string, map<string, nat>>, filled: map<string, map<string, nat>>, status: string, byVertical: map<string, nat>)
    requires SplitAdded(m, filled, status, byVertical, {}) && forall v :: Cell(m, v, status) == 0
    ensures Holds(filled, status, byVertical) && byVertical.Keys <= filled.Keys
  {
    forall v ensures Cell(filled, v, status) == At(byVertical, v) {
      assert Cell(m, v, status) == 0;
    }
  }

  lemma {:induction false} PageIsListed(pages: seq<seq<string>>, page: nat)
    requires page < |pages|
    ensures Flatten(pages[..page + 1]) == Flatten(pages[..page]) + pages[page]
    ensures forall id :: id in pages[page] ==> id in Flatten(pages)
    decreases |pages|
  {
    assert pages[..page + 1][..page] == pages[..page];
    var n := |pages| - 1;
    if page < n {
      PageIsListed(pages[..n], page);
    }
  }

  function ActiveIn(rows: map<string, Row>): set<string> {
    set id | id in rows && Active(rows[id])
  }

  lemma {:induction false} ActiveSplits(rows: map<string, Row>)
    ensures |ActiveIn(rows)| == |OfStatus(rows, "awaiting_review", false)| + |OfStatus(rows, "qualified", true)|
  {
    assert |"awaiting_review"| == 15 && |"qualified"| == 9;
    assert OfStatus(rows, "awaiting_review", false) !! OfStatus(rows, "qualified", true);
    assert ActiveIn(rows) == OfStatus(rows, "awaiting_review", false) + OfStatus(rows, "qualified", true);
  }

  /** The businesses inserted, removed or written between two instants. */
  function Changed(a: map<string, Row>, b: map<string, Row>): set<string> {
    set id | id in a.Keys + b.Keys && (id !in a || id !in b || a[id] != b[id])
  }

  lemma {:induction false} CardOfDifference(x: set<string>, y: set<string>, d: set<string>)
    requires x <= y + d
    ensures |x| <= |y| + |d|
  {
    SubsetCard(x, y + d);
    assert y + d == y + (d - y);
    SubsetCard(d - y, d);
  }

  lemma {:induction false} SubsetCard(x: set<string>, y: set<string>)
    requires x <= y
    ensures |x| <= |y|
  {
    assert y == x + (y - x);
  }

  /** Two instants' counts of one status differ by at most the businesses that changed. */
  lemma {:induction false} CountsDrift(a: map<string, Row>, b: map<string, Row>, status: string, excludeBacklogged: bool)
    ensures |OfStatus(a, status, excludeBacklogged)| <= |OfStatus(b, status, excludeBacklogged)| + |Changed(a, b)|
    ensures |OfStatus(b, status, excludeBacklogged)| <= |OfStatus(a, status, excludeBacklogged)| + |Changed(a, b)|
  {
    CardOfDifference(OfStatus(a, status, excludeBacklogged), OfStatus(b, status, excludeBacklogged), Changed(a, b));
    CardOfDifference(OfStatus(b, status, excludeBacklogged), OfStatus(a, status, excludeBacklogged), Changed(a, b));
  }

  lemma FunnelDistinct()
    ensures Distinct(FUNNEL_STATUSES)
  {
    var lengths := [3, 8, 9, 8, 15, 8, 20, 21, 13, 7, 9, 9];
    assert forall i :: 0 <= i < |lengths| ==> |FUNNEL_STATUSES[i]| == lengths[i];
    assert FUNNEL_STATUSES[1][1] == 'u' && FUNNEL_STATUSES[3][1] == 'e' && FUNNEL_STATUSES[5][1] == 'p';
    assert FUNNEL_STATUSES[2][0] == 'q' && FUNNEL_STATUSES[10][0] == 'r' && FUNNEL_STATUSES[11][0] == 'c';
  }
}
