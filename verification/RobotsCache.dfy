/**
 * robots.txt through two caches: a memo in each process and a table row shared by all. Memo
 * expiries are nanoseconds, row expiries whole seconds.
 */
module RobotsCache {
  import opened Common
  import opened Throttle

  const ROBOTS_TTL := 86_400 * SECOND

  const DISALLOW_ALL := "User-agent: *\nDisallow: /\n"

  datatype Live = NoAnswer | Answer(status: int, text: string)

  datatype Memo = Memo(body: string, expires: int)

  datatype Row = Row(body: string, expiresAt: int)

  predicate RowFresh(row: Row, now: int) {
    now < row.expiresAt * SECOND
  }

  /** Section 2.3.1 of RFC 9309: unavailable means everything allowed, unreachable nothing. */
  function BodyOf(status: int, text: string): string {
    if 400 <= status < 500 then ""
    else if status >= 500 then DISALLOW_ALL
    else text
  }

  /** What the calls of one lookup meet, and the clock readings between them. */
  datatype Calls = Calls(readFails: bool, live: Live, now: int, stampedAt: int, writeFails: bool, parses: bool)

  /** A live memo answers; otherwise a fresh row or a stored fetch becomes the memo, with its own expiry. */
  predicate Looked(
      mem: map<string, Memo>, rows: map<string, Row>, host: string, checkedAt: int, calls: Calls,
      r: Option<Memo>, memAfter: map<string, Memo>, rowsAfter: map<string, Row>)
  {
    var hit := host in mem && checkedAt < mem[host].expires;
    var row := host in rows && calls.now < rows[host].expiresAt * 1_000_000_000;
    var stores := !hit && !calls.readFails && !row && calls.live.Answer? && !calls.writeFails;
    && (r.None? <==> !hit && (calls.readFails || (!row && !stores) || !calls.parses))
    && (hit ==> r == Some(mem[host]))
    && (!hit && row && r.Some? ==> r.value == Memo(rows[host].body, rows[host].expiresAt * SECOND))
    && (stores && r.Some? ==> r.value == Memo(BodyOf(calls.live.status, calls.live.text), calls.stampedAt + 86_400_000_000_000))
    && rowsAfter == (if stores then
                       rows[host := Row(BodyOf(calls.live.status, calls.live.text),
                                        (calls.stampedAt + 86_400_000_000_000) / 1_000_000_000)]
                     else rows)
    && memAfter == if hit || r.None? then mem else mem[host := r.value]
  }

  predicate MemoLive<K(==)>(mem: map<K, Memo>, key: K, now: int) {
    key in mem && now < mem[key].expires
  }

  class Cache {
    var mem: map<string, Memo>
    var rows: map<string, Row>

    constructor (rows: map<string, Row>)
      ensures mem == map[] && this.rows == rows
    {
      mem := map[];
      this.rows := rows;
    }

    method FetchLive(live: Live) returns (body: Option<string>)
      ensures body.None? <==> live.NoAnswer?
      ensures live.Answer? && 400 <= live.status < 500 ==> body == Some("")
      ensures live.Answer? && live.status >= 500 ==> body == Some(DISALLOW_ALL)
      ensures live.Answer? && live.status < 400 ==> body == Some(live.text)
    {
      if live.NoAnswer? {
        return None;
      }
      if live.status >= 400 && live.status < 500 {
        return Some("");
      }
      if live.status >= 500 {
        return Some("User-agent: *\nDisallow: /\n");
      }
      return Some(live.text);
    }

    method LoadOrFetch(host: string, readFails: bool, live: Live, now: int, stampedAt: int, writeFails: bool)
      returns (r: Option<Memo>)
      modifies this`rows
      ensures readFails ==> r.None? && rows == old(rows)
      ensures var hit := host in old(rows) && now < old(rows)[host].expiresAt * 1_000_000_000;
              !readFails ==>
              && (hit ==> r == Some(Memo(old(rows)[host].body, old(rows)[host].expiresAt * SECOND)))
              && (!hit ==> (r.None? <==> live.NoAnswer? || writeFails))
              && (!hit && r.Some? ==>
                    && r.value.expires == stampedAt + 86_400_000_000_000
                    && r.value.body == BodyOf(live.status, live.text)
                    && r.value.body == (if 400 <= live.status < 500 then "" else if live.status >= 500 then DISALLOW_ALL
                                        else live.text))
              && rows == if hit || r.None? then old(rows)
                         else old(rows)[host := Row(r.value.body, (stampedAt + 86_400_000_000_000) / 1_000_000_000)]
    {
      if readFails {
        return None;
      }
      if host in rows {
        var expires := rows[host].expiresAt * SECOND;
        if now < expires {
          return Some(Memo(rows[host].body, expires));
        }
      }
      var body := FetchLive(live);
      if body.None? {
        return None;
      }
      var expires := stampedAt + ROBOTS_TTL;
      if writeFails {
        return None;
      }
      rows := rows[host := Row(body.value, Unix(expires))];
      return Some(Memo(body.value, expires));
    }

    /** A live memo answers; otherwise whatever is loaded or fetched, with its own expiry, becomes the memo. */
    method Lookup(host: string, checkedAt: int, readFails: bool, live: Live, now: int, stampedAt: int, writeFails: bool,
                  parses: bool)
      returns (r: Option<Memo>)
      modifies this
      ensures Looked(old(mem), old(rows), host, checkedAt, Calls(readFails, live, now, stampedAt, writeFails, parses), r, mem, rows)
    {
      if host in mem && checkedAt < mem[host].expires {
        return Some(mem[host]);
      }
      r := LoadOrFetch(host, readFails, live, now, stampedAt, writeFails);
      if r.None? {
        return;
      }
      if !parses {
        return None;
      }
      mem := mem[host := r.value];
    }
  }

  // ----- any number of processes and lookups --------------------------------------------

  /** Where a lookup stands; `checked` is when the body it holds was last known fresh. */
  datatype Stage =
    | Loading
    | Fetching
    | Received(body: string, received: int)
    | Writing(body: string, stamped: int)
    | Keeping(body: string, expires: int, checked: int)

  datatype Lookup = Lookup(process: nat, host: string, stage: Stage)

  /** A body off the wire: when it had arrived, and the clock reading its expiry is counted from. */
  datatype Fetch = Fetch(host: string, body: string, received: int, stamped: int)

  datatype Decision = Decision(host: string, body: string, checked: int)

  datatype Sys = Sys(
    clock: int,
    memos: map<(nat, string), Memo>,
    rows: seq<(string, Row)>,          // every row ever written
    lookups: map<nat, Lookup>,
    fetches: seq<Fetch>,
    decisions: seq<Decision>)

  datatype Step =
    | Tick(d: nat)
    | Begin(l: nat, process: nat, host: string)
    | Load(l: nat, read: Option<nat>)
    | Arrive(l: nat, status: int, text: string)
    | Stamp(l: nat)
    | Write(l: nat)
    | Keep(l: nat)
    | Fail(l: nat)

  function Initial(clock: int): Sys {
    Sys(clock, map[], [], map[], [], [])
  }

  function Moved(s: Sys, l: nat, stage: Stage): Sys
    requires l in s.lookups
  {
    s.(lookups := s.lookups[l := s.lookups[l].(stage := stage)])
  }

  /** The row a lookup reads: any row that host ever had, or none. */
  function ReadRow(s: Sys, host: string, read: Option<nat>): Option<Row> {
    if read.Some? && read.value < |s.rows| && s.rows[read.value].0 == host then Some(s.rows[read.value].1) else None
  }

  function Next(s: Sys, step: Step): Sys {
    match step
    case Tick(d) => s.(clock := s.clock + d)
    case Begin(l, process, host) =>
      if l in s.lookups then s
      else if MemoLive(s.memos, (process, host), s.clock) then
        s.(decisions := s.decisions + [Decision(host, s.memos[(process, host)].body, s.clock)])
      else s.(lookups := s.lookups[l := Lookup(process, host, Loading)])
    case Load(l, read) =>
      if l !in s.lookups || !s.lookups[l].stage.Loading? then s
      else
        var row := ReadRow(s, s.lookups[l].host, read);
        if row.Some? && RowFresh(row.value, s.clock) then
          Moved(s, l, Keeping(row.value.body, row.value.expiresAt * SECOND, s.clock))
        else Moved(s, l, Fetching)
    case Arrive(l, status, text) =>
      if l in s.lookups && s.lookups[l].stage.Fetching? then Moved(s, l, Received(BodyOf(status, text), s.clock)) else s
    case Stamp(l) =>
      if l in s.lookups && s.lookups[l].stage.Received? then
        var look := s.lookups[l];
        Moved(s, l, Writing(look.stage.body, s.clock))
          .(fetches := s.fetches + [Fetch(look.host, look.stage.body, look.stage.received, s.clock)])
      else s
    case Write(l) =>
      if l in s.lookups && s.lookups[l].stage.Writing? then
        var look := s.lookups[l];
        var expires := look.stage.stamped + ROBOTS_TTL;
        Moved(s, l, Keeping(look.stage.body, expires, look.stage.stamped))
          .(rows := s.rows + [(look.host, Row(look.stage.body, Unix(expires)))])
      else s
    case Keep(l) =>
      if l in s.lookups && s.lookups[l].stage.Keeping? then
        var look := s.lookups[l];
        s.(lookups := s.lookups - {l},
           memos := s.memos[(look.process, look.host) := Memo(look.stage.body, look.stage.expires)],
           decisions := s.decisions + [Decision(look.host, look.stage.body, look.stage.checked)])
      else s
    case Fail(l) => s.(lookups := s.lookups - {l})
  }

  function Run(s: Sys, steps: seq<Step>): Sys {
    if steps == [] then s else Next(Run(s, steps[..|steps| - 1]), steps[|steps| - 1])
  }

  // ----- one lookup with nothing else running ----------------------------------------------

  function OfProcess(process: nat, mem: map<string, Memo>): map<(nat, string), Memo> {
    map host | host in mem :: (process, host) := mem[host]
  }

  /** The table's rows as the one row of this host, if there is one. */
  function RowsOf(rows: map<string, Row>, host: string): seq<(string, Row)> {
    if host in rows then [(host, rows[host])] else []
  }

  function Started(process: nat, mem: map<string, Memo>, rows: map<string, Row>, host: string, checkedAt: int): Sys {
    Sys(checkedAt, OfProcess(process, mem), RowsOf(rows, host), map[], [], [])
  }

  /** From the table's answer on. */
  function AloneFetch(s: Sys, calls: Calls): Sys {
    if 0 !in s.lookups || s.lookups[0].stage.Keeping? then s
    else if calls.live.NoAnswer? then Next(s, Fail(0))
    else
      var arrived := Next(s, Arrive(0, calls.live.status, calls.live.text));
      var stamped := Next(arrived.(clock := calls.stampedAt), Stamp(0));
      Next(stamped, if calls.writeFails then Fail(0) else Write(0))
  }

  function Alone(process: nat, mem: map<string, Memo>, rows: map<string, Row>, host: string, checkedAt: int, calls: Calls): Sys {
    var begun := Next(Started(process, mem, rows, host, checkedAt), Begin(0, process, host));
    if 0 !in begun.lookups then begun
    else if calls.readFails then Next(begun, Fail(0))
    else
      var held := AloneFetch(Next(begun.(clock := calls.now), Load(0, Some(0))), calls);
      Next(held, if calls.parses then Keep(0) else Fail(0))
  }

  lemma {:induction false} MemoKept(process: nat, mem: map<string, Memo>, host: string, memo: Memo)
    ensures OfProcess(process, mem)[(process, host) := memo] == OfProcess(process, mem[host := memo])
  {
  }

  lemma {:induction false} AloneFetches(s: Sys, host: string, process: nat, calls: Calls)
    requires s.lookups == map[0 := Lookup(process, host, Fetching)]
    ensures var t := AloneFetch(s, calls);
            && t.memos == s.memos && t.decisions == s.decisions
            && if calls.live.Answer? && !calls.writeFails then
                 var body, expires := BodyOf(calls.live.status, calls.live.text), calls.stampedAt + ROBOTS_TTL;
                 && t.lookups == map[0 := Lookup(process, host, Keeping(body, expires, calls.stampedAt))]
                 && t.rows == s.rows + [(host, Row(body, Unix(expires)))]
               else t.lookups == map[] && t.rows == s.rows
  {
    if calls.live.Answer? {
      var body := BodyOf(calls.live.status, calls.live.text);
      var arrived := Next(s, Arrive(0, calls.live.status, calls.live.text));
      assert arrived.lookups == map[0 := Lookup(process, host, Received(body, s.clock))];
      var stamped := Next(arrived.(clock := calls.stampedAt), Stamp(0));
      assert stamped.lookups == map[0 := Lookup(process, host, Writing(body, calls.stampedAt))];
    }
  }

  /** The last row written for the host is the table's row after it. */
  predicate RowIs(written: seq<(string, Row)>, rows: map<string, Row>, host: string) {
    if written == [] then host !in rows else host in rows && written[|written| - 1] == (host, rows[host])
  }

  /** The steps ended with these memos and row, and one decision if a memo came back. */
  ghost predicate Ended(
      t: Sys, process: nat, host: string, r: Option<Memo>, memAfter: map<string, Memo>, rowsAfter: map<string, Row>)
  {
    && t.memos == OfProcess(process, memAfter) && RowIs(t.rows, rowsAfter, host)
    && |t.decisions| == (if r.Some? then 1 else 0)
    && (r.Some? ==> t.decisions[0].host == host && t.decisions[0].body == r.value.body)
  }

  lemma {:induction false} AloneMisses(
      process: nat, mem: map<string, Memo>, rows: map<string, Row>, host: string, checkedAt: int)
    requires !MemoLive(mem, host, checkedAt)
    ensures var begun := Next(Started(process, mem, rows, host, checkedAt), Begin(0, process, host));
            begun == Started(process, mem, rows, host, checkedAt).(lookups := map[0 := Lookup(process, host, Loading)])
  {
    assert !MemoLive(OfProcess(process, mem), (process, host), checkedAt);
  }

  /** The state of the lone lookup at the given stage, before anything is kept. */
  function Holding(
      process: nat, mem: map<string, Memo>, rows: map<string, Row>, host: string, now: int, stage: Stage): Sys
  {
    Started(process, mem, rows, host, now).(lookups := map[0 := Lookup(process, host, stage)])
  }

  lemma {:induction false} AloneLoads(process: nat, mem: map<string, Memo>, rows: map<string, Row>, host: string, now: int)
    ensures var stage := if host in rows && RowFresh(rows[host], now) then
                           Keeping(rows[host].body, rows[host].expiresAt * SECOND, now) else Fetching;
            Next(Holding(process, mem, rows, host, now, Loading), Load(0, Some(0))) == Holding(process, mem, rows, host, now, stage)
  {
    var s := Holding(process, mem, rows, host, now, Loading);
    assert ReadRow(s, host, Some(0)) == if host in rows then Some(rows[host]) else None;
    var stage := if host in rows && RowFresh(rows[host], now) then
                   Keeping(rows[host].body, rows[host].expiresAt * SECOND, now) else Fetching;
    assert s.lookups[0 := Lookup(process, host, stage)] == map[0 := Lookup(process, host, stage)];
  }

  lemma {:induction false} KeepsOrFails(
      held: Sys, process: nat, mem: map<string, Memo>, host: string, body: string, expires: int, checked: int, parses: bool)
    requires held.lookups == map[0 := Lookup(process, host, Keeping(body, expires, checked))]
    requires held.memos == OfProcess(process, mem) && held.decisions == []
    ensures var t := Next(held, if parses then Keep(0) else Fail(0));
            && t.rows == held.rows
            && t.memos == OfProcess(process, if parses then mem[host := Memo(body, expires)] else mem)
            && t.decisions == if parses then [Decision(host, body, checked)] else []
  {
    if parses {
      MemoKept(process, mem, host, Memo(body, expires));
      assert Next(held, Keep(0)).memos == held.memos[(process, host) := Memo(body, expires)];
    }
  }

  lemma {:induction false} AloneFromRow(
      process: nat, mem: map<string, Memo>, rows: map<string, Row>, host: string, checkedAt: int, calls: Calls,
      r: Option<Memo>, memAfter: map<string, Memo>, rowsAfter: map<string, Row>)
    requires Looked(mem, rows, host, checkedAt, calls, r, memAfter, rowsAfter)
    requires !MemoLive(mem, host, checkedAt) && !calls.readFails && host in rows && RowFresh(rows[host], calls.now)
    ensures Ended(Alone(process, mem, rows, host, checkedAt, calls), process, host, r, memAfter, rowsAfter)
  {
    var row := rows[host];
    AloneMisses(process, mem, rows, host, checkedAt);
    AloneLoads(process, mem, rows, host, calls.now);
    var held := Holding(process, mem, rows, host, calls.now, Keeping(row.body, row.expiresAt * SECOND, calls.now));
    assert Alone(process, mem, rows, host, checkedAt, calls) == Next(held, if calls.parses then Keep(0) else Fail(0));
    KeepsOrFails(held, process, mem, host, row.body, row.expiresAt * SECOND, calls.now, calls.parses);
  }

  lemma {:induction false} AloneReachesTable(
      process: nat, mem: map<string, Memo>, rows: map<string, Row>, host: string, checkedAt: int, calls: Calls)
    requires !MemoLive(mem, host, checkedAt) && !calls.readFails && !(host in rows && RowFresh(rows[host], calls.now))
    ensures Alone(process, mem, rows, host, checkedAt, calls)
            == Next(AloneFetch(Holding(process, mem, rows, host, calls.now, Fetching), calls), if calls.parses then Keep(0) else Fail(0))
  {
    AloneMisses(process, mem, rows, host, checkedAt);
    AloneLoads(process, mem, rows, host, calls.now);
  }

  /** A fetch that is stored: what becomes of it. */
  lemma {:induction false} AloneStores(
      process: nat, mem: map<string, Memo>, rows: map<string, Row>, host: string, calls: Calls, memo: Memo)
    requires calls.live.Answer? && !calls.writeFails
    requires memo == Memo(BodyOf(calls.live.status, calls.live.text), calls.stampedAt + ROBOTS_TTL)
    ensures var fetched := AloneFetch(Holding(process, mem, rows, host, calls.now, Fetching), calls);
            Ended(Next(fetched, if calls.parses then Keep(0) else Fail(0)), process, host,
                  if calls.parses then Some(memo) else None,
                  if calls.parses then mem[host := memo] else mem,
                  rows[host := Row(memo.body, Unix(memo.expires))])
  {
    var s := Holding(process, mem, rows, host, calls.now, Fetching);
    AloneFetches(s, host, process, calls);
    KeepsOrFails(AloneFetch(s, calls), process, mem, host, memo.body, memo.expires, calls.stampedAt, calls.parses);
  }

  /** A fetch that is not: nothing comes of it. */
  lemma {:induction false} AloneStoresNothing(
      process: nat, mem: map<string, Memo>, rows: map<string, Row>, host: string, calls: Calls)
    requires calls.live.NoAnswer? || calls.writeFails
    ensures var fetched := AloneFetch(Holding(process, mem, rows, host, calls.now, Fetching), calls);
            Ended(Next(fetched, if calls.parses then Keep(0) else Fail(0)), process, host, None, mem, rows)
  {
    AloneFetches(Holding(process, mem, rows, host, calls.now, Fetching), host, process, calls);
  }

  lemma {:induction false} AloneFromStored(
      process: nat, mem: map<string, Memo>, rows: map<string, Row>, host: string, checkedAt: int, calls: Calls,
      r: Option<Memo>, memAfter: map<string, Memo>, rowsAfter: map<string, Row>)
    requires Looked(mem, rows, host, checkedAt, calls, r, memAfter, rowsAfter)
    requires !MemoLive(mem, host, checkedAt) && !calls.readFails && !(host in rows && RowFresh(rows[host], calls.now))
    requires calls.live.Answer? && !calls.writeFails
    ensures var memo := Memo(BodyOf(calls.live.status, calls.live.text), calls.stampedAt + ROBOTS_TTL);
            && r == (if calls.parses then Some(memo) else None)
            && memAfter == (if calls.parses then mem[host := memo] else mem)
            && rowsAfter == rows[host := Row(memo.body, Unix(memo.expires))]
  {
  }

  lemma {:induction false} AloneFromFetch(
      process: nat, mem: map<string, Memo>, rows: map<string, Row>, host: string, checkedAt: int, calls: Calls,
      r: Option<Memo>, memAfter: map<string, Memo>, rowsAfter: map<string, Row>)
    requires Looked(mem, rows, host, checkedAt, calls, r, memAfter, rowsAfter)
    requires !MemoLive(mem, host, checkedAt) && !calls.readFails && !(host in rows && RowFresh(rows[host], calls.now))
    ensures Ended(Alone(process, mem, rows, host, checkedAt, calls), process, host, r, memAfter, rowsAfter)
  {
    AloneReachesTable(process, mem, rows, host, checkedAt, calls);
    if calls.live.Answer? && !calls.writeFails {
      AloneFromStored(process, mem, rows, host, checkedAt, calls, r, memAfter, rowsAfter);
      AloneStores(process, mem, rows, host, calls, Memo(BodyOf(calls.live.status, calls.live.text), calls.stampedAt + ROBOTS_TTL));
    } else {
      AloneStoresNothing(process, mem, rows, host, calls);
    }
  }

  lemma {:induction false} AloneWithoutTable(
      process: nat, mem: map<string, Memo>, rows: map<string, Row>, host: string, checkedAt: int, calls: Calls,
      r: Option<Memo>, memAfter: map<string, Memo>, rowsAfter: map<string, Row>)
    requires Looked(mem, rows, host, checkedAt, calls, r, memAfter, rowsAfter)
    requires MemoLive(mem, host, checkedAt) || calls.readFails
    ensures Ended(Alone(process, mem, rows, host, checkedAt, calls), process, host, r, memAfter, rowsAfter)
  {
    if MemoLive(mem, host, checkedAt) {
      assert MemoLive(OfProcess(process, mem), (process, host), checkedAt);
    } else {
      AloneMisses(process, mem, rows, host, checkedAt);
    }
  }

  /** What the process's method does is what the steps of one lookup do when nothing else runs. */
  lemma {:induction false} AloneLooks(
      process: nat, mem: map<string, Memo>, rows: map<string, Row>, host: string, checkedAt: int, calls: Calls,
      r: Option<Memo>, memAfter: map<string, Memo>, rowsAfter: map<string, Row>)
    requires Looked(mem, rows, host, checkedAt, calls, r, memAfter, rowsAfter)
    ensures Ended(Alone(process, mem, rows, host, checkedAt, calls), process, host, r, memAfter, rowsAfter)
  {
    if MemoLive(mem, host, checkedAt) || calls.readFails {
      AloneWithoutTable(process, mem, rows, host, checkedAt, calls, r, memAfter, rowsAfter);
    } else if host in rows && RowFresh(rows[host], calls.now) {
      AloneFromRow(process, mem, rows, host, checkedAt, calls, r, memAfter, rowsAfter);
    } else {
      AloneFromFetch(process, mem, rows, host, checkedAt, calls, r, memAfter, rowsAfter);
    }
  }

  // ----- freshness -----------------------------------------------------------------------------

  /** Some fetch of this host brought this body and an expiry no later than a day after its stamp. */
  ghost predicate Backed(fetches: seq<Fetch>, host: string, body: string, expires: int) {
    exists k :: 0 <= k < |fetches| && Backs(fetches[k], host, body, expires)
  }

  predicate Backs(f: Fetch, host: string, body: string, expires: int) {
    f.host == host && f.body == body && expires <= f.stamped + ROBOTS_TTL
  }

  /** Some fetch of this host brought this body less than a day before `checked`. */
  ghost predicate Justified(fetches: seq<Fetch>, d: Decision) {
    exists k :: 0 <= k < |fetches| && Supports(fetches[k], d)
  }

  predicate Supports(f: Fetch, d: Decision) {
    f.host == d.host && f.body == d.body && f.received <= f.stamped <= d.checked < f.stamped + ROBOTS_TTL
  }

  ghost predicate LookupOk(fetches: seq<Fetch>, clock: int, look: Lookup) {
    match look.stage
    case Received(body, received) => received <= clock
    case Writing(body, stamped) =>
      && Backed(fetches, look.host, body, stamped + ROBOTS_TTL)
      && Justified(fetches, Decision(look.host, body, stamped))
    case Keeping(body, expires, checked) =>
      && Backed(fetches, look.host, body, expires)
      && Justified(fetches, Decision(look.host, body, checked))
    case _ => true
  }

  ghost predicate Inv(s: Sys) {
    && (forall k :: 0 <= k < |s.fetches| ==> s.fetches[k].received <= s.fetches[k].stamped <= s.clock)
    && (forall p :: p in s.memos ==> Backed(s.fetches, p.1, s.memos[p].body, s.memos[p].expires))
    && (forall k :: 0 <= k < |s.rows| ==> Backed(s.fetches, s.rows[k].0, s.rows[k].1.body, s.rows[k].1.expiresAt * SECOND))
    && (forall l :: l in s.lookups ==> LookupOk(s.fetches, s.clock, s.lookups[l]))
    && (forall k :: 0 <= k < |s.decisions| ==> Justified(s.fetches, s.decisions[k]))
  }

  /** A body not yet expired justifies a decision now. */
  lemma {:induction false} FreshJustifies(s: Sys, host: string, body: string, expires: int)
    requires forall k :: 0 <= k < |s.fetches| ==> s.fetches[k].received <= s.fetches[k].stamped <= s.clock
    requires Backed(s.fetches, host, body, expires) && s.clock < expires
    ensures Justified(s.fetches, Decision(host, body, s.clock))
  {
    var k :| 0 <= k < |s.fetches| && Backs(s.fetches[k], host, body, expires);
    assert Supports(s.fetches[k], Decision(host, body, s.clock));
  }

  lemma {:induction false} Grows(fetches: seq<Fetch>, f: Fetch)
    ensures forall host, body, expires :: Backed(fetches, host, body, expires) ==> Backed(fetches + [f], host, body, expires)
    ensures forall d :: Justified(fetches, d) ==> Justified(fetches + [f], d)
  {
    var longer := fetches + [f];
    forall host, body, expires | Backed(fetches, host, body, expires) ensures Backed(longer, host, body, expires) {
      var k :| 0 <= k < |fetches| && Backs(fetches[k], host, body, expires);
      assert longer[k] == fetches[k];
    }
    forall d | Justified(fetches, d) ensures Justified(longer, d) {
      var k :| 0 <= k < |fetches| && Supports(fetches[k], d);
      assert longer[k] == fetches[k];
    }
  }

  lemma {:induction false} StampKeeps(s: Sys, l: nat)
    requires Inv(s) && l in s.lookups && s.lookups[l].stage.Received?
    ensures Inv(Next(s, Stamp(l)))
  {
    var look := s.lookups[l];
    var f := Fetch(look.host, look.stage.body, look.stage.received, s.clock);
    var t := Next(s, Stamp(l));
    Grows(s.fetches, f);
    assert LookupOk(s.fetches, s.clock, look);
    assert t.fetches[|s.fetches|] == f;
    assert Backs(f, look.host, look.stage.body, s.clock + ROBOTS_TTL);
    assert Supports(f, Decision(look.host, look.stage.body, s.clock));
    forall m | m in t.lookups ensures LookupOk(t.fetches, t.clock, t.lookups[m]) {
      assert m != l ==> LookupOk(s.fetches, s.clock, s.lookups[m]);
    }
  }

  lemma {:induction false} BeginKeeps(s: Sys, l: nat, process: nat, host: string)
    requires Inv(s)
    ensures Inv(Next(s, Begin(l, process, host)))
  {
    if MemoLive(s.memos, (process, host), s.clock) {
      FreshJustifies(s, host, s.memos[(process, host)].body, s.memos[(process, host)].expires);
    }
  }

  lemma {:induction false} LoadKeeps(s: Sys, l: nat, read: Option<nat>)
    requires Inv(s) && l in s.lookups
    ensures Inv(Next(s, Load(l, read)))
  {
    var row := ReadRow(s, s.lookups[l].host, read);
    if row.Some? && RowFresh(row.value, s.clock) {
      FreshJustifies(s, s.lookups[l].host, row.value.body, row.value.expiresAt * SECOND);
    }
  }

  lemma {:induction false} StepKeeps(s: Sys, step: Step)
    requires Inv(s)
    ensures Inv(Next(s, step))
  {
    if Next(s, step) != s {
      match step
      case Begin(l, process, host) => BeginKeeps(s, l, process, host);
      case Load(l, read) => LoadKeeps(s, l, read);
      case Stamp(l) => StampKeeps(s, l);
      case Write(l) => WriteKeeps(s, l);
      case Keep(l) => assert LookupOk(s.fetches, s.clock, s.lookups[l]);
      case Tick(d) =>
        forall l | l in s.lookups ensures LookupOk(s.fetches, s.clock + d, s.lookups[l]) {
          assert LookupOk(s.fetches, s.clock, s.lookups[l]);
        }
      case _ =>
    }
  }

  lemma {:induction false} WriteKeeps(s: Sys, l: nat)
    requires Inv(s) && l in s.lookups && s.lookups[l].stage.Writing?
    ensures Inv(Next(s, Write(l)))
  {
    var look := s.lookups[l];
    var expires := look.stage.stamped + ROBOTS_TTL;
    assert LookupOk(s.fetches, s.clock, look);
    var k :| 0 <= k < |s.fetches| && Backs(s.fetches[k], look.host, look.stage.body, expires);
    assert Unix(expires) * SECOND <= expires;
    assert Backs(s.fetches[k], look.host, look.stage.body, Unix(expires) * SECOND);
  }

  lemma {:induction false} InvRun(clock: int, steps: seq<Step>)
    ensures Inv(Run(Initial(clock), steps))
  {
    if steps != [] {
      InvRun(clock, steps[..|steps| - 1]);
      StepKeeps(Run(Initial(clock), steps[..|steps| - 1]), steps[|steps| - 1]);
    }
  }

  /**
   * Every decision, through either cache and in any interleaving of lookups by any number of
   * processes, rests on a body of that very host stamped less than 24 hours before the decision's
   * freshness check.
   */
  lemma {:induction false} DecisionsAreFresh(clock: int, steps: seq<Step>, k: nat)
    requires k < |Run(Initial(clock), steps).decisions|
    ensures var s := Run(Initial(clock), steps);
            exists f :: f in s.fetches && Supports(f, s.decisions[k])
  {
    InvRun(clock, steps);
    var s := Run(Initial(clock), steps);
    assert Justified(s.fetches, s.decisions[k]);
    var i :| 0 <= i < |s.fetches| && Supports(s.fetches[i], s.decisions[k]);
    assert s.fetches[i] in s.fetches;
  }

  // ----- the age counted from a body's arrival ------------------------------------------------

  /** No fetch of the run waited longer than this from arrival to the clock reading. */
  predicate DelaysAtMost(s: Sys, gap: nat) {
    forall k :: 0 <= k < |s.fetches| ==> s.fetches[k].stamped - s.fetches[k].received <= gap
  }

  /** Some body the decision can rest on had arrived less than `age` before. */
  ghost predicate Young(fetches: seq<Fetch>, d: Decision, age: int) {
    exists k :: 0 <= k < |fetches| && Supports(fetches[k], d) && d.checked - fetches[k].received < age
  }

  ghost predicate AllYoung(s: Sys, age: int) {
    forall k :: 0 <= k < |s.decisions| ==> Young(s.fetches, s.decisions[k], age)
  }

  /** Every run with delays of at most `gap` decides on bodies that arrived less than `age` before. */
  ghost predicate ArrivalAgeUnder(gap: nat, age: int) {
    forall clock, steps ::
      DelaysAtMost(Run(Initial(clock), steps), gap) ==> AllYoung(Run(Initial(clock), steps), age)
  }

  lemma {:induction false} AgesBounded(clock: int, steps: seq<Step>, gap: nat)
    requires DelaysAtMost(Run(Initial(clock), steps), gap)
    ensures AllYoung(Run(Initial(clock), steps), ROBOTS_TTL + gap)
  {
    InvRun(clock, steps);
    var s := Run(Initial(clock), steps);
    forall k | 0 <= k < |s.decisions| ensures Young(s.fetches, s.decisions[k], ROBOTS_TTL + gap) {
      assert Justified(s.fetches, s.decisions[k]);
      var i :| 0 <= i < |s.fetches| && Supports(s.fetches[i], s.decisions[k]);
      assert s.fetches[i].stamped - s.fetches[i].received <= gap;
    }
  }

  lemma {:induction false} RunOnto(s: Sys, steps: seq<Step>, step: Step)
    ensures Run(s, steps + [step]) == Next(Run(s, steps), step)
  {
    assert (steps + [step])[..|steps + [step]| - 1] == steps;
  }

  /** A body arrives, and `gap` passes before the clock is read. */
  lemma {:induction false} LateStamp(clock: int, host: string, gap: nat) returns (steps: seq<Step>)
    ensures var s := Run(Initial(clock), steps);
            && s.clock == clock + gap && s.memos == map[] && s.decisions == []
            && s.lookups == map[0 := Lookup(0, host, Writing("", clock + gap))]
            && s.fetches == [Fetch(host, "", clock, clock + gap)]
  {
    var begin, load, arrive, tick, stamp := Begin(0, 0, host), Load(0, None), Arrive(0, 404, ""), Tick(gap), Stamp(0);
    var s1 := Next(Initial(clock), begin);
    assert s1.lookups == map[0 := Lookup(0, host, Loading)];
    var s3 := Next(Next(s1, load), arrive);
    assert s3.lookups == map[0 := Lookup(0, host, Received("", clock))];
    RunOnto(Initial(clock), [], begin);
    RunOnto(Initial(clock), [] + [begin], load);
    RunOnto(Initial(clock), [] + [begin] + [load], arrive);
    RunOnto(Initial(clock), [] + [begin] + [load] + [arrive], tick);
    RunOnto(Initial(clock), [] + [begin] + [load] + [arrive] + [tick], stamp);
    steps := [] + [begin] + [load] + [arrive] + [tick] + [stamp];
  }

  /** Its memo is then used at its last instant. */
  lemma {:induction false} LateReading(clock: int, host: string, gap: nat) returns (steps: seq<Step>)
    ensures var s := Run(Initial(clock), steps);
            && s.fetches == [Fetch(host, "", clock, clock + gap)]
            && |s.decisions| == 2 && s.decisions[1] == Decision(host, "", clock + gap + ROBOTS_TTL - 1)
  {
    var late := LateStamp(clock, host, gap);
    var s := Run(Initial(clock), late);
    var write, keep, tick, begin := Write(0), Keep(0), Tick(ROBOTS_TTL - 1), Begin(1, 0, host);
    var kept := Next(Next(s, write), keep);
    assert kept.memos == map[(0, host) := Memo("", clock + gap + ROBOTS_TTL)] && kept.lookups == map[];
    RunOnto(Initial(clock), late, write);
    RunOnto(Initial(clock), late + [write], keep);
    RunOnto(Initial(clock), late + [write] + [keep], tick);
    RunOnto(Initial(clock), late + [write] + [keep] + [tick], begin);
    steps := late + [write] + [keep] + [tick] + [begin];
  }

  /**
   * Counted from a body's arrival the age is under 24 hours plus the longest delay before the
   * clock was read, over all runs, and no smaller bound will do: 24 hours are kept exactly when
   * there is no delay.
   */
  lemma {:induction false} ArrivalAgeExactly(gap: nat, age: int)
    ensures ArrivalAgeUnder(gap, age) <==> age >= ROBOTS_TTL + gap
  {
    if age >= ROBOTS_TTL + gap {
      forall clock, steps | DelaysAtMost(Run(Initial(clock), steps), gap)
        ensures AllYoung(Run(Initial(clock), steps), age)
      {
        AgesBounded(clock, steps, gap);
        YoungForLonger(Run(Initial(clock), steps), ROBOTS_TTL + gap, age);
      }
    } else {
      var steps := LateReading(0, "host", gap);
      var s := Run(Initial(0), steps);
      assert DelaysAtMost(s, gap) && !Young(s.fetches, s.decisions[1], age);
    }
  }

  lemma {:induction false} YoungForLonger(s: Sys, age: int, longer: int)
    requires AllYoung(s, age) && age <= longer
    ensures AllYoung(s, longer)
  {
    forall k | 0 <= k < |s.decisions| ensures Young(s.fetches, s.decisions[k], longer) {
      assert Young(s.fetches, s.decisions[k], age);
    }
  }
}
