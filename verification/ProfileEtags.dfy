/**
 * Targeting profiles under optimistic concurrency. Create puts a row under a fresh id, Update
 * puts one only where the stored etag is the one its caller names, Delete removes one. Ids and
 * etags are 16 random bytes, taken never to repeat.
 */
module ProfileEtags {
  import opened Common

  datatype Weights = Weights(websiteAge: real, auditScore: real, businessSize: real, contactConfidence: real, verticalFit: real)

  datatype Stats = Stats(discovered: int, qualified: int, approved: int)

  datatype Profile = Profile(
    id: string,
    vertical: string,
    location: string,
    weights: Weights,
    enabled: bool,
    stats: Stats,
    createdAt: string,
    updatedAt: string,
    etag: string)

  /** A stored row: the profile and its gsi1 keys, absent or both present. */
  datatype Row = Row(profile: Profile, index: Option<(string, string)>)

  datatype Result<T> = Ok(value: T) | NotFound | Invalid | EtagMismatch

  predicate Valid(p: Profile) {
    var w := p.weights;
    && !Blank(p.vertical)
    && !Blank(p.location)
    && 0.99 <= w.websiteAge + w.auditScore + w.businessSize + w.contactConfidence + w.verticalFit <= 1.01
    && 0.0 <= w.websiteAge && 0.0 <= w.auditScore && 0.0 <= w.businessSize
    && 0.0 <= w.contactConfidence && 0.0 <= w.verticalFit
  }

  method Validate(p: Profile) returns (ok: bool)
    ensures ok <==>
              && (exists i :: 0 <= i < |p.vertical| && !IsSpace(p.vertical[i]))
              && (exists i :: 0 <= i < |p.location| && !IsSpace(p.location[i]))
              && p.weights.websiteAge >= 0.0 && p.weights.auditScore >= 0.0 && p.weights.businessSize >= 0.0
              && p.weights.contactConfidence >= 0.0 && p.weights.verticalFit >= 0.0
              && 0.99 <= p.weights.websiteAge + p.weights.auditScore + p.weights.businessSize
                         + p.weights.contactConfidence + p.weights.verticalFit <= 1.01
    ensures ok == Valid(p)
  {
    if Blank(p.vertical) || Blank(p.location) {
      return false;
    }
    var w := p.weights;
    var sum := w.websiteAge + w.auditScore + w.businessSize + w.contactConfidence + w.verticalFit;
    if sum < 0.99 || sum > 1.01 {
      return false;
    }
    var all := [w.websiteAge, w.auditScore, w.businessSize, w.contactConfidence, w.verticalFit];
    for i := 0 to |all|
      invariant forall k :: 0 <= k < i ==> all[k] >= 0.0
    {
      if all[i] < 0.0 {
        return false;
      }
    }
    assert forall k :: 0 <= k < 5 ==> all[k] >= 0.0;
    assert all[0] >= 0.0 && all[1] >= 0.0 && all[2] >= 0.0 && all[3] >= 0.0 && all[4] >= 0.0;
    return true;
  }

  function Item(p: Profile): Row {
    Row(p, if p.enabled then Some(("TARGET#ENABLED", p.vertical + "#" + p.location)) else None)
  }

  const NO_STATS := Stats(0, 0, 0)

  function Fresh(p: Profile, id: string, etag: string, now: string): Profile {
    p.(id := id, etag := etag, createdAt := now, updatedAt := now, stats := NO_STATS)
  }

  /** The body with the fields no caller may set taken from the row that was read. */
  function Carried(p: Profile, current: Profile, etag: string, now: string): Profile {
    p.(id := current.id, createdAt := current.createdAt, stats := current.stats, updatedAt := now, etag := etag)
  }

  predicate PutAllowed(rows: map<string, Row>, id: string, expected: string) {
    expected == "" || (id in rows && rows[id].profile.etag == expected)
  }

  /** Each row is stored under its own id. */
  ghost predicate Keyed(rows: map<string, Row>) {
    forall id :: id in rows ==> rows[id].profile.id == id
  }

  class ProfileTable {
    var rows: map<string, Row>

    constructor ()
      ensures rows == map[]
    {
      rows := map[];
    }

    method PutItem(p: Profile, expected: string) returns (ok: bool)
      modifies this
      ensures ok <==> expected == "" || (p.id in old(rows) && old(rows)[p.id].profile.etag == expected)
      ensures ok ==> p.id in rows && Stored(rows[p.id], p)
      ensures ok == PutAllowed(old(rows), p.id, expected)
      ensures rows == if ok then old(rows)[p.id := Item(p)] else old(rows)
      ensures Keyed(old(rows)) ==> Keyed(rows)
    {
      if expected != "" {
        if p.id !in rows || rows[p.id].profile.etag != expected {
          return false;
        }
      }
      var index := None;
      if p.enabled {
        index := Some(("TARGET#ENABLED", p.vertical + "#" + p.location));
      }
      rows := rows[p.id := Row(p, index)];
      return true;
    }

    method Create(p: Profile, id: string, etag: string, now: string) returns (r: Result<Profile>)
      modifies this
      ensures r == if Valid(p) then Ok(Fresh(p, id, etag, now)) else Invalid
      ensures r.Ok? ==>
                && FromCaller(r.value, p) && r.value.id == id && r.value.etag == etag
                && r.value.createdAt == r.value.updatedAt == now && r.value.stats == Stats(0, 0, 0)
                && id in rows && Stored(rows[id], r.value)
      ensures rows == if r.Ok? then old(rows)[id := Item(r.value)] else old(rows)
      ensures Keyed(old(rows)) ==> Keyed(rows)
    {
      var ok := Validate(p);
      if !ok {
        return Invalid;
      }
      var made := p.(id := id, etag := etag, createdAt := now, updatedAt := now, stats := Stats(0, 0, 0));
      var put := PutItem(made, "");
      return Ok(made);
    }

    method Get(id: string) returns (r: Result<Profile>)
      ensures r == if id == "" then Invalid else if id in rows then Ok(rows[id].profile) else NotFound
    {
      if id == "" {
        return Invalid;
      }
      if id !in rows {
        return NotFound;
      }
      return Ok(rows[id].profile);
    }

    /** Update with nobody else writing between its read and its put. */
    method Update(id: string, p: Profile, expected: string, etag: string, now: string) returns (r: Result<Profile>)
      requires Keyed(rows)
      modifies this
      ensures Keyed(rows)
      ensures r.Invalid? <==> id == "" || expected == "" || !Valid(p)
      ensures r.NotFound? <==> !r.Invalid? && id !in old(rows)
      ensures r.EtagMismatch? <==> !r.Invalid? && id in old(rows) && old(rows)[id].profile.etag != expected
      ensures r.Ok? ==>
                var current := old(rows)[id].profile;
                && FromCaller(r.value, p) && r.value.etag == etag && r.value.updatedAt == now
                && r.value.id == id && r.value.createdAt == current.createdAt && r.value.stats == current.stats
                && id in rows && Stored(rows[id], r.value)
      ensures r.Ok? ==> r.value == Carried(p, old(rows)[id].profile, etag, now)
      ensures rows == if r.Ok? then old(rows)[id := Item(r.value)] else old(rows)
    {
      if id == "" || expected == "" {
        return Invalid;
      }
      var ok := Validate(p);
      if !ok {
        return Invalid;
      }
      r := Get(id);
      if !r.Ok? {
        return;
      }
      var current := r.value;
      var next := p.(id := current.id, createdAt := current.createdAt, stats := current.stats);
      next := next.(updatedAt := now, etag := etag);
      ok := PutItem(next, expected);
      return if ok then Ok(next) else EtagMismatch;
    }

    method Delete(id: string) returns (r: Result<()>)
      modifies this
      ensures r == if id == "" then Invalid else if id in old(rows) then Ok(()) else NotFound
      ensures rows == if id == "" then old(rows) else old(rows) - {id}
      ensures Keyed(old(rows)) ==> Keyed(rows)
    {
      if id == "" {
        return Invalid;
      }
      var present := id in rows;
      rows := rows - {id};
      return if present then Ok(()) else NotFound;
    }
  }

  /** What callers set is what this caller sent. */
  predicate FromCaller(stored: Profile, body: Profile) {
    && stored.vertical == body.vertical && stored.location == body.location
    && stored.weights == body.weights && stored.enabled == body.enabled
  }

  /** The row holds the profile, indexed by vertical and location exactly when it is enabled. */
  predicate Stored(row: Row, p: Profile) {
    row.profile == p
    && row.index == if p.enabled then Some(("TARGET#ENABLED", p.vertical + "#" + p.location)) else None
  }

  // ----- any number of callers, interleaved ---------------------------------------------

  /** What reached the table, in order. */
  datatype Write =
    | Created(id: string, row: Row)
    | Updated(id: string, expected: string, row: Row)
    | Deleted(id: string)

  /** An Update past its Get: `read` is where in the log the row it got was written. */
  datatype Updater = Updater(id: string, body: Profile, expected: string, read: nat)

  datatype Sys = Sys(rows: map<string, Row>, updaters: map<nat, Updater>, log: seq<Write>, drawn: set<string>)

  const EMPTY := Sys(map[], map[], [], {""})

  datatype Step =
    | CreateStep(body: Profile, id: string, etag: string, now: string)
    | GetStep(h: nat, id: string, body: Profile, expected: string, read: nat)
    | PutStep(h: nat, etag: string, now: string)
    | DeleteStep(id: string)

  /** GetItem may answer with any version of the row, even one since replaced or deleted. */
  predicate Readable(s: Sys, id: string, read: nat) {
    read < |s.log| && s.log[read].id == id && !s.log[read].Deleted?
  }

  function Next(s: Sys, step: Step): Sys {
    match step
    case CreateStep(body, id, etag, now) =>
      if !Valid(body) || id in s.drawn || etag in s.drawn || id == etag then s
      else
        var row := Item(Fresh(body, id, etag, now));
        s.(rows := s.rows[id := row], log := s.log + [Created(id, row)], drawn := s.drawn + {id, etag})
    case GetStep(h, id, body, expected, read) =>
      if h in s.updaters || id == "" || expected == "" || !Valid(body) || !Readable(s, id, read) then s
      else s.(updaters := s.updaters[h := Updater(id, body, expected, read)])
    case PutStep(h, etag, now) =>
      if h !in s.updaters || etag in s.drawn then s
      else
        var u := s.updaters[h];
        var done := s.(updaters := s.updaters - {h}, drawn := s.drawn + {etag});
        if u.read < |s.log| && !s.log[u.read].Deleted? && PutAllowed(s.rows, u.id, u.expected) then
          var row := Item(Carried(u.body, s.log[u.read].row.profile, etag, now));
          done.(rows := s.rows[u.id := row], log := s.log + [Updated(u.id, u.expected, row)])
        else done
    case DeleteStep(id) =>
      if id in s.rows then s.(rows := s.rows - {id}, log := s.log + [Deleted(id)]) else s
  }

  function Run(s: Sys, steps: seq<Step>): Sys {
    if steps == [] then s else Next(Run(s, steps[..|steps| - 1]), steps[|steps| - 1])
  }

  /** Where the log last mentions `id`, or -1. */
  function LastAbout(log: seq<Write>, id: string): (p: int)
    ensures -1 <= p < |log|
    ensures p >= 0 ==> log[p].id == id
    ensures forall j :: p < j < |log| ==> log[j].id != id
  {
    if log == [] then -1
    else if log[|log| - 1].id == id then |log| - 1
    else LastAbout(log[..|log| - 1], id)
  }

  lemma {:induction false} LastAboutAppend(log: seq<Write>, w: Write, id: string)
    ensures LastAbout(log + [w], id) == if w.id == id then |log| else LastAbout(log, id)
  {
    assert (log + [w])[..|log|] == log;
  }

  /** Write k replaced write p: the caller named p's etag and nothing about that id lies between. */
  ghost predicate Replaces(log: seq<Write>, p: nat, k: nat)
    requires p < k < |log| && log[k].Updated?
  {
    && !log[p].Deleted? && log[p].id == log[k].id
    && log[p].row.profile.etag == log[k].expected
    && forall j :: p < j < k ==> log[j].id != log[k].id
  }

  ghost predicate Chained(log: seq<Write>, k: nat)
    requires k < |log| && log[k].Updated?
  {
    exists p: nat :: p < k && Replaces(log, p, k)
  }

  /** Writes i and j of one id agree on what no caller may change. */
  predicate SameOrigin(a: Write, b: Write) {
    !a.Deleted? && !b.Deleted? && a.id == b.id ==>
      a.row.profile.createdAt == b.row.profile.createdAt && a.row.profile.stats == b.row.profile.stats
  }

  predicate RowOk(w: Write) {
    !w.Deleted? ==> w.row.profile.id == w.id && w.row == Item(w.row.profile) && Valid(w.row.profile)
  }

  /** Live rows are exactly the last writes. */
  ghost predicate TableOk(s: Sys) {
    forall id :: LastIsLive(s, id)
  }

  ghost predicate LastIsLive(s: Sys, id: string) {
    var p := LastAbout(s.log, id);
    && (id in s.rows <==> p >= 0 && !s.log[p].Deleted?)
    && (id in s.rows ==> s.rows[id] == s.log[p].row)
  }

  ghost predicate RowsOk(log: seq<Write>) {
    forall k :: 0 <= k < |log| ==> RowOk(log[k])
  }

  ghost predicate ChainsOk(log: seq<Write>) {
    forall k :: 0 <= k < |log| && log[k].Updated? ==> Chained(log, k)
  }

  ghost predicate OriginsOk(log: seq<Write>) {
    forall i, j :: 0 <= i < j < |log| ==> SameOrigin(log[i], log[j])
  }

  /** A creation is the first write of its id, a deletion the last. */
  ghost predicate EndsOk(log: seq<Write>) {
    forall i, j :: 0 <= i < j < |log| && (log[i].Deleted? || log[j].Created?) ==> log[j].id != log[i].id
  }

  /** All ids and etags in the log were drawn, and no etag was drawn twice. */
  ghost predicate DrawnOk(log: seq<Write>, drawn: set<string>) {
    && (forall k :: 0 <= k < |log| ==> log[k].id in drawn)
    && (forall k :: 0 <= k < |log| && !log[k].Deleted? ==> log[k].row.profile.etag in drawn)
    && forall i, j :: 0 <= i < j < |log| && !log[i].Deleted? && !log[j].Deleted? ==>
         log[i].row.profile.etag != log[j].row.profile.etag
  }

  ghost predicate UpdatersOk(s: Sys) {
    forall h :: h in s.updaters ==>
      Valid(s.updaters[h].body) && s.updaters[h].expected != "" && Readable(s, s.updaters[h].id, s.updaters[h].read)
  }

  ghost predicate LogOk(log: seq<Write>) {
    RowsOk(log) && ChainsOk(log) && OriginsOk(log) && EndsOk(log)
  }

  ghost predicate Inv(s: Sys) {
    TableOk(s) && LogOk(s.log) && DrawnOk(s.log, s.drawn) && UpdatersOk(s) && "" in s.drawn
  }

  /** What a write must be to follow `log`: a first write, or one about a row still there. */
  ghost predicate Follows(log: seq<Write>, w: Write) {
    var p := LastAbout(log, w.id);
    && RowOk(w)
    && (w.Created? <==> p < 0)
    && (p >= 0 ==> !log[p].Deleted? && SameOrigin(log[p], w))
    && (p >= 0 && w.Updated? ==> log[p].row.profile.etag == w.expected)
  }

  lemma {:induction false} ChainsAppend(log: seq<Write>, w: Write)
    requires ChainsOk(log) && Follows(log, w)
    ensures ChainsOk(log + [w])
  {
    var longer := log + [w];
    forall k | 0 <= k < |longer| && longer[k].Updated? ensures Chained(longer, k) {
      if k < |log| {
        assert Chained(log, k);
        var p: nat :| p < k && Replaces(log, p, k);
        assert Replaces(longer, p, k);
      } else {
        assert Replaces(longer, LastAbout(log, w.id), k);
      }
    }
  }

  lemma {:induction false} OriginsAppend(log: seq<Write>, w: Write)
    requires OriginsOk(log) && EndsOk(log) && Follows(log, w)
    ensures OriginsOk(log + [w]) && EndsOk(log + [w])
  {
    var longer := log + [w];
    var last := LastAbout(log, w.id);
    forall i, j | 0 <= i < j < |longer|
      ensures SameOrigin(longer[i], longer[j])
      ensures longer[i].Deleted? || longer[j].Created? ==> longer[j].id != longer[i].id
    {
      if j < |log| {
        assert SameOrigin(log[i], log[j]);
      } else if i < last {
        assert SameOrigin(log[i], log[last]);
      }
    }
  }

  lemma {:induction false} TableAppend(s: Sys, t: Sys, w: Write)
    requires TableOk(s) && t.log == s.log + [w]
    requires t.rows == if w.Deleted? then s.rows - {w.id} else s.rows[w.id := w.row]
    ensures TableOk(t)
  {
    forall id ensures LastIsLive(t, id) {
      assert LastIsLive(s, id);
      LastAboutAppend(s.log, w, id);
    }
  }

  lemma {:induction false} DrawnAppend(log: seq<Write>, w: Write, before: set<string>, after: set<string>)
    requires DrawnOk(log, before) && before <= after && w.id in after
    requires !w.Deleted? ==> w.row.profile.etag in after - before
    ensures DrawnOk(log + [w], after)
  {
  }

  lemma {:induction false} UpdatersStay(s: Sys, t: Sys, w: Write)
    requires UpdatersOk(s) && t.log == s.log + [w]
    requires forall h :: h in t.updaters ==> h in s.updaters && t.updaters[h] == s.updaters[h]
    ensures UpdatersOk(t)
  {
  }

  lemma {:induction false} WriteKeeps(s: Sys, t: Sys, w: Write)
    requires Inv(s) && Follows(s.log, w) && t.log == s.log + [w]
    requires t.rows == if w.Deleted? then s.rows - {w.id} else s.rows[w.id := w.row]
    requires forall h :: h in t.updaters ==> h in s.updaters && t.updaters[h] == s.updaters[h]
    requires s.drawn <= t.drawn && w.id in t.drawn
    requires !w.Deleted? ==> w.row.profile.etag in t.drawn - s.drawn
    ensures Inv(t)
  {
    ChainsAppend(s.log, w);
    OriginsAppend(s.log, w);
    TableAppend(s, t, w);
    DrawnAppend(s.log, w, s.drawn, t.drawn);
    UpdatersStay(s, t, w);
  }

  lemma {:induction false} PutFollows(s: Sys, u: Updater, etag: string, now: string)
    requires Inv(s) && Valid(u.body) && u.expected != "" && Readable(s, u.id, u.read)
    requires PutAllowed(s.rows, u.id, u.expected)
    ensures Follows(s.log, Updated(u.id, u.expected, Item(Carried(u.body, s.log[u.read].row.profile, etag, now))))
  {
    assert LastIsLive(s, u.id);
    assert RowOk(s.log[u.read]);
    assert u.read < LastAbout(s.log, u.id) ==> SameOrigin(s.log[u.read], s.log[LastAbout(s.log, u.id)]);
  }

  lemma {:induction false} QuietKeeps(s: Sys, t: Sys)
    requires Inv(s) && UpdatersOk(t) && t.rows == s.rows && t.log == s.log && s.drawn <= t.drawn
    ensures Inv(t)
  {
    forall id ensures LastIsLive(t, id) {
      assert LastIsLive(s, id);
    }
  }

  lemma {:induction false} PutKeeps(s: Sys, h: nat, etag: string, now: string)
    requires Inv(s) && h in s.updaters && etag !in s.drawn
    ensures Inv(Next(s, PutStep(h, etag, now)))
  {
    var t := Next(s, PutStep(h, etag, now));
    var u := s.updaters[h];
    if PutAllowed(s.rows, u.id, u.expected) {
      PutFollows(s, u, etag, now);
      WriteKeeps(s, t, Updated(u.id, u.expected, Item(Carried(u.body, s.log[u.read].row.profile, etag, now))));
    } else {
      QuietKeeps(s, t);
    }
  }

  lemma {:induction false} StepKeeps(s: Sys, step: Step)
    requires Inv(s)
    ensures Inv(Next(s, step))
  {
    var t := Next(s, step);
    if t != s {
      match step
      case CreateStep(body, id, etag, now) => WriteKeeps(s, t, Created(id, Item(Fresh(body, id, etag, now))));
      case PutStep(h, etag, now) => PutKeeps(s, h, etag, now);
      case DeleteStep(id) =>
        assert LastIsLive(s, id);
        WriteKeeps(s, t, Deleted(id));
      case GetStep(h, id, body, expected, read) => QuietKeeps(s, t);
    }
  }

  lemma {:induction false} InvRun(steps: seq<Step>)
    ensures Inv(Run(EMPTY, steps))
  {
    if steps != [] {
      InvRun(steps[..|steps| - 1]);
      StepKeeps(Run(EMPTY, steps[..|steps| - 1]), steps[|steps| - 1]);
    }
  }

  /**
   * In every interleaving, each successful update replaced exactly the version its caller named,
   * with no other write of that profile in between.
   */
  lemma {:induction false} UpdatesFormAChain(steps: seq<Step>, k: nat)
    requires k < |Run(EMPTY, steps).log| && Run(EMPTY, steps).log[k].Updated?
    ensures Chained(Run(EMPTY, steps).log, k)
  {
    InvRun(steps);
  }

  /** No update is lost: two successful updates never name the same etag. */
  lemma {:induction false} NoLostUpdate(steps: seq<Step>, i: nat, j: nat)
    requires i < j < |Run(EMPTY, steps).log|
    requires Run(EMPTY, steps).log[i].Updated? && Run(EMPTY, steps).log[j].Updated?
    ensures Run(EMPTY, steps).log[i].expected != Run(EMPTY, steps).log[j].expected
  {
    InvRun(steps);
    ChainsNameOnce(Run(EMPTY, steps).log, Run(EMPTY, steps).drawn, i, j);
  }

  lemma {:induction false} ChainsNameOnce(log: seq<Write>, drawn: set<string>, i: nat, j: nat)
    requires ChainsOk(log) && DrawnOk(log, drawn)
    requires i < j < |log| && log[i].Updated? && log[j].Updated?
    ensures log[i].expected != log[j].expected
  {
    assert Chained(log, i) && Chained(log, j);
    var p: nat :| p < i && Replaces(log, p, i);
    var q: nat :| q < j && Replaces(log, q, j);
    ReplacedOnce(log, p, q, i, j);
    assert p < q || q < p;
  }

  /** No version is replaced twice. */
  lemma {:induction false} ReplacedOnce(log: seq<Write>, p: nat, q: nat, i: nat, j: nat)
    requires p < i < j < |log| && q < j && log[i].Updated? && log[j].Updated?
    requires Replaces(log, p, i) && Replaces(log, q, j)
    ensures p != q
  {
  }

  /** Nothing is written about a profile after its deletion, so no update resurrects it. */
  lemma {:induction false} DeletedStaysDeleted(steps: seq<Step>, i: nat)
    requires i < |Run(EMPTY, steps).log| && Run(EMPTY, steps).log[i].Deleted?
    ensures var s := Run(EMPTY, steps);
            s.log[i].id !in s.rows && forall j :: i < j < |s.log| ==> s.log[j].id != s.log[i].id
  {
    InvRun(steps);
    var s := Run(EMPTY, steps);
    assert LastIsLive(s, s.log[i].id);
  }

  /** The state after the first n steps. */
  function At(steps: seq<Step>, n: nat): Sys
    requires n <= |steps|
  {
    Run(EMPTY, steps[..n])
  }

  lemma {:induction false} AtNext(steps: seq<Step>, n: nat)
    requires n < |steps|
    ensures At(steps, n + 1) == Next(At(steps, n), steps[n])
  {
    assert steps[..n + 1][..n] == steps[..n];
  }

  /** The updater holds what its request at step g sent. */
  predicate Requested(step: Step, h: nat, u: Updater) {
    step == GetStep(h, u.id, u.body, u.expected, u.read)
  }

  ghost predicate RequestedBefore(steps: seq<Step>, n: nat, h: nat, u: Updater)
    requires n <= |steps|
  {
    exists g :: 0 <= g < n && Requested(steps[g], h, u)
  }

  lemma {:induction false} UpdaterStays(s: Sys, step: Step, h: nat)
    requires h in s.updaters && h in Next(s, step).updaters
    ensures Next(s, step).updaters[h] == s.updaters[h]
  {
  }

  lemma {:induction false} UpdaterRequested(steps: seq<Step>, n: nat, h: nat)
    requires n <= |steps| && h in At(steps, n).updaters
    ensures RequestedBefore(steps, n, h, At(steps, n).updaters[h])
  {
    if n > 0 {
      AtNext(steps, n - 1);
      if h in At(steps, n - 1).updaters {
        UpdaterRequested(steps, n - 1, h);
        UpdaterStays(At(steps, n - 1), steps[n - 1], h);
      } else {
        assert Requested(steps[n - 1], h, At(steps, n).updaters[h]);
      }
    }
  }

  /** Request g and put i, of one caller: the write stores the request's own fields under the put's etag and time. */
  predicate WroteRequest(get: Step, put: Step, w: Write) {
    && get.GetStep? && put.PutStep? && put.h == get.h && w.Updated?
    && w.id == get.id && w.expected == get.expected && FromCaller(w.row.profile, get.body)
    && w.row.profile.etag == put.etag && w.row.profile.updatedAt == put.now
  }

  ghost predicate WrittenBefore(steps: seq<Step>, n: nat, w: Write)
    requires n <= |steps|
  {
    exists g, i :: 0 <= g < i < n && WroteRequest(steps[g], steps[i], w)
  }

  lemma {:induction false} PutWrites(steps: seq<Step>, n: nat)
    requires n < |steps| && |At(steps, n + 1).log| > |At(steps, n).log|
    requires At(steps, n + 1).log[|At(steps, n).log|].Updated?
    ensures WrittenBefore(steps, n + 1, At(steps, n + 1).log[|At(steps, n).log|])
  {
    AtNext(steps, n);
    var u := At(steps, n).updaters[steps[n].h];
    UpdaterRequested(steps, n, steps[n].h);
    var g :| 0 <= g < n && Requested(steps[g], steps[n].h, u);
    assert WroteRequest(steps[g], steps[n], At(steps, n + 1).log[|At(steps, n).log|]);
  }

  lemma {:induction false} LogGrows(s: Sys, step: Step)
    ensures s.log <= Next(s, step).log && |Next(s, step).log| <= |s.log| + 1
  {
  }

  lemma {:induction false} WrittenLater(steps: seq<Step>, n: nat, w: Write)
    requires n < |steps| && WrittenBefore(steps, n, w)
    ensures WrittenBefore(steps, n + 1, w)
  {
  }

  lemma {:induction false} WritesRequested(steps: seq<Step>, n: nat, k: nat)
    requires n <= |steps| && k < |At(steps, n).log| && At(steps, n).log[k].Updated?
    ensures WrittenBefore(steps, n, At(steps, n).log[k])
  {
    if n > 0 {
      AtNext(steps, n - 1);
      LogGrows(At(steps, n - 1), steps[n - 1]);
      if k < |At(steps, n - 1).log| {
        WritesRequested(steps, n - 1, k);
        WrittenLater(steps, n - 1, At(steps, n - 1).log[k]);
      } else {
        PutWrites(steps, n - 1);
      }
    }
  }

  /** In every run each update stored exactly the fields its own request sent. */
  lemma {:induction false} UpdatesStoreTheirRequest(steps: seq<Step>, k: nat)
    requires k < |Run(EMPTY, steps).log| && Run(EMPTY, steps).log[k].Updated?
    ensures WrittenBefore(steps, |steps|, Run(EMPTY, steps).log[k])
  {
    assert steps[..|steps|] == steps;
    WritesRequested(steps, |steps|, k);
  }

  /** Across its whole life a profile keeps its id, creation time and stats, whatever callers send. */
  lemma {:induction false} ServerFieldsCarried(steps: seq<Step>, i: nat, j: nat)
    requires i < j < |Run(EMPTY, steps).log|
    requires Run(EMPTY, steps).log[i].id == Run(EMPTY, steps).log[j].id
    requires !Run(EMPTY, steps).log[j].Deleted?
    ensures var log := Run(EMPTY, steps).log;
            && !log[i].Deleted?
            && log[j].row.profile.id == log[i].row.profile.id
            && log[j].row.profile.createdAt == log[i].row.profile.createdAt
            && log[j].row.profile.stats == log[i].row.profile.stats
  {
    InvRun(steps);
    var log := Run(EMPTY, steps).log;
    assert SameOrigin(log[i], log[j]) && RowOk(log[i]) && RowOk(log[j]);
  }

  /** Every stored profile is valid and is indexed exactly when enabled. */
  lemma {:induction false} StoredRowsSound(steps: seq<Step>, id: string)
    requires id in Run(EMPTY, steps).rows
    ensures var row := Run(EMPTY, steps).rows[id];
            && row.profile.id == id && Valid(row.profile)
            && (row.index.Some? <==> row.profile.enabled)
            && (row.index.Some? ==> row.index.value == ("TARGET#ENABLED", row.profile.vertical + "#" + row.profile.location))
  {
    InvRun(steps);
    var s := Run(EMPTY, steps);
    assert LastIsLive(s, id);
    assert RowOk(s.log[LastAbout(s.log, id)]);
  }
}
