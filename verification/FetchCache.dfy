/**
 * Cached fetching of one URL: the retry loop, the ETag cache row, and any number of fetchers
 * working against an origin whose content changes. Cache keys are SHA-256 of the URL, taken as
 * injective, so one URL stands for all.
 */
module FetchCache {
  import opened Common
  import opened Throttle

  const ETAG_TTL := 86_400 * SECOND
  const DEFAULT_MAX_RETRIES := 3
  const NOT_MODIFIED := 304

  datatype Entry = Entry(etag: string, modified: Option<int>, body: string)

  datatype Record = Record(entry: Entry, expiresAt: int)

  /** What one request brought back; an unreadable body fails only when somebody reads it. */
  datatype Answer = NetError | Reply(status: int, etag: string, modified: Option<int>, body: string, readable: bool)

  datatype Fetched = Fetched(status: int, etag: string, modified: Option<int>, body: string, fromCache: bool)

  datatype Outcome = Again | Failed | Done(fetched: Fetched)

  predicate ShouldRetry(status: int) {
    status == 429 || status >= 500
  }

  predicate HasValidator(etag: string, modified: Option<int>) {
    etag != "" || modified.Some?
  }

  /** What attempt number `attempt` makes of its answer; `slept` is whether a backoff sleep ran to its end. */
  function Settle(cached: Option<Entry>, attempt: nat, maxRetries: nat, a: Answer, slept: bool): Outcome {
    if a.NetError? then
      if attempt < maxRetries && slept then Again else Failed
    else if a.status == NOT_MODIFIED && cached.Some? then
      Done(Fetched(a.status, a.etag, a.modified, cached.value.body, true))
    else if ShouldRetry(a.status) && attempt < maxRetries then
      if slept then Again else Failed
    else if !a.readable then Failed
    else Done(Fetched(a.status, a.etag, a.modified, a.body, false))
  }

  /** The row the cache answers with, unless it is missing or past its expiry. */
  function Usable(row: Option<Record>, now: int): Option<Entry> {
    if row.Some? && Unix(now) < row.value.expiresAt then Some(row.value.entry) else None
  }

  /** A fetched response worth a cache row. */
  predicate Cacheable(f: Fetched) {
    !f.fromCache && 200 <= f.status < 300 && HasValidator(f.etag, f.modified)
  }

  function RecordOf(f: Fetched, now: int): Record {
    Record(Entry(f.etag, f.modified, f.body), Unix(now + ETAG_TTL))
  }

  class EtagCache {
    var row: Option<Record>

    constructor ()
      ensures row == None
    {
      row := None;
    }

    /** A failing read is a miss. */
    method Get(now: int, fails: bool) returns (entry: Option<Entry>)
      ensures entry.Some? <==> !fails && row.Some? && now / 1_000_000_000 < row.value.expiresAt
      ensures entry.Some? ==> entry.value == row.value.entry
      ensures entry == if fails then None else Usable(row, now)
    {
      if fails || row.None? {
        return None;
      }
      if Unix(now) >= row.value.expiresAt {
        return None;
      }
      return Some(row.value.entry);
    }

    method Put(etag: string, modified: Option<int>, body: string, now: int, fails: bool)
      modifies this
      ensures row == if (etag != "" || modified.Some?) && !fails
                     then Some(Record(Entry(etag, modified, body), (now + 86_400_000_000_000) / 1_000_000_000))
                     else old(row)
    {
      if etag == "" && modified.None? {
        return;
      }
      if fails {
        return;
      }
      row := Some(Record(Entry(etag, modified, body), Unix(now + ETAG_TTL)));
    }
  }

  class Client {
    const maxRetries: nat
    const cache: EtagCache

    constructor (configured: int, cache: EtagCache)
      ensures this.cache == cache
      ensures maxRetries == if configured < 0 then 0 else if configured == 0 then DEFAULT_MAX_RETRIES else configured
    {
      this.cache := cache;
      if configured < 0 {
        maxRetries := 0;
      } else if configured == 0 {
        maxRetries := DEFAULT_MAX_RETRIES;
      } else {
        maxRetries := configured;
      }
    }

    /**
     * At most maxRetries + 1 requests, the last of which settles the call: the loop never runs
     * out. `answers` and `slept` say what each attempt meets.
     */
    method FetchWithRetry(cached: Option<Entry>, answers: seq<Answer>, slept: seq<bool>)
      returns (out: Outcome, requests: nat)
      requires |answers| == maxRetries + 1 && |slept| == maxRetries + 1
      ensures 1 <= requests <= maxRetries + 1
      // Every request but the last met a network error, a 429 or a server error, and slept.
      ensures forall k :: 0 <= k < requests - 1 ==> slept[k] && (answers[k].NetError? || answers[k].status == 429 || answers[k].status >= 500)
      // The last is answered from the cache, with what came, or not at all.
      ensures var a := answers[requests - 1];
              && (out.Done? && out.fetched.fromCache ==>
                    && a.Reply? && a.status == 304 && cached.Some?
                    && out.fetched == Fetched(304, a.etag, a.modified, cached.value.body, true))
              && (out.Done? && !out.fetched.fromCache ==>
                    a.Reply? && a.readable && out.fetched == Fetched(a.status, a.etag, a.modified, a.body, false))
              && (a.Reply? && a.status == 304 && cached.Some? ==> out.Done? && out.fetched.fromCache)
              && (a.Reply? && a.readable && !(a.status == 429 || a.status >= 500) ==> out.Done?)
              && (a.Reply? && a.readable && requests == maxRetries + 1 ==> out.Done?)
              && (out.Done? && requests <= maxRetries ==> !(a.status == 429 || a.status >= 500))
              && (out.Failed? ==> a.NetError? || !a.readable || a.status == 429 || a.status >= 500)
              && (out.Failed? && requests <= maxRetries && slept[requests - 1] ==>
                    a.Reply? && !a.readable && !(a.status == 429 || a.status >= 500))
      ensures out == Settle(cached, requests - 1, maxRetries, answers[requests - 1], slept[requests - 1])
      ensures !out.Again?
      ensures forall k :: 0 <= k < requests - 1 ==> Settle(cached, k, maxRetries, answers[k], slept[k]).Again?
    {
      requests := 0;
      for attempt := 0 to maxRetries + 1
        invariant requests == attempt <= maxRetries
        invariant forall k :: 0 <= k < attempt ==> Settle(cached, k, maxRetries, answers[k], slept[k]).Again?
      {
        requests := requests + 1;
        var a := answers[attempt];
        if a.NetError? {
          if attempt < maxRetries {
            if !slept[attempt] {
              return Failed, requests;
            }
            continue;
          }
          return Failed, requests;
        }
        if a.status == NOT_MODIFIED && cached.Some? {
          return Done(Fetched(a.status, a.etag, a.modified, cached.value.body, true)), requests;
        }
        if ShouldRetry(a.status) && attempt < maxRetries {
          if !slept[attempt] {
            return Failed, requests;
          }
          continue;
        }
        if !a.readable {
          return Failed, requests;
        }
        return Done(Fetched(a.status, a.etag, a.modified, a.body, false)), requests;
      }
      assert false;
    }

    /** Fetch past robots and throttle: look up, fetch, store what is worth storing. */
    method Fetch(answers: seq<Answer>, slept: seq<bool>, readAt: int, readFails: bool, storedAt: int, storeFails: bool)
      returns (out: Outcome, requests: nat)
      requires |answers| == maxRetries + 1 && |slept| == maxRetries + 1
      modifies cache
      ensures !out.Again? && 1 <= requests <= maxRetries + 1
      // A cached answer is the body of an unexpired row, told current by a 304.
      ensures out.Done? && out.fetched.fromCache ==>
                && !readFails && old(cache.row).Some? && readAt / 1_000_000_000 < old(cache.row).value.expiresAt
                && answers[requests - 1].Reply? && answers[requests - 1].status == 304
                && out.fetched.body == old(cache.row).value.entry.body
      // Any other is what the last request brought.
      ensures out.Done? && !out.fetched.fromCache ==>
                var a := answers[requests - 1];
                a.Reply? && a.readable && out.fetched == Fetched(a.status, a.etag, a.modified, a.body, false)
      ensures forall k :: 0 <= k < requests - 1 ==>
                slept[k] && (answers[k].NetError? || answers[k].status == 429 || answers[k].status >= 500)
      ensures cache.row == if out.Done? && !out.fetched.fromCache && 200 <= out.fetched.status < 300
                              && (out.fetched.etag != "" || out.fetched.modified.Some?) && !storeFails
                           then Some(Record(Entry(out.fetched.etag, out.fetched.modified, out.fetched.body),
                                            (storedAt + 86_400_000_000_000) / 1_000_000_000))
                           else old(cache.row)
      // What the fetchers' steps take for a usable row and a storable answer is just that.
      ensures out.Done? && out.fetched.fromCache ==> out.fetched.body == Usable(old(cache.row), readAt).value.body
      ensures cache.row == if out.Done? && Cacheable(out.fetched) && !storeFails
                           then Some(RecordOf(out.fetched, storedAt)) else old(cache.row)
    {
      var cached := cache.Get(readAt, readFails);
      out, requests := FetchWithRetry(cached, answers, slept);
      if out.Done? {
        var f := out.fetched;
        if !f.fromCache && f.status >= 200 && f.status < 300 {
          cache.Put(f.etag, f.modified, f.body, storedAt, storeFails);
        }
      }
    }
  }

  // ----- the origin --------------------------------------------------------------------

  /** One state of the resource: its validators and its body. */
  datatype Version = Version(etag: string, modified: Option<int>, body: string)

  /** How the origin answers a request: not at all, with an error status, or as RFC 9110 asks. */
  datatype Mood = Unreachable | Failing(status: int, text: string) | Healthy(readable: bool)

  /**
   * Sections 13.1.2 and 13.1.3 of RFC 9110: an entity tag decides alone when one was sent,
   * otherwise the modification time does.
   */
  predicate Revalidates(v: Version, e: Entry) {
    if e.etag != "" then v.etag == e.etag
    else e.modified.Some? && v.modified.Some? && v.modified.value <= e.modified.value
  }

  function OriginAnswer(v: Version, cached: Option<Entry>, mood: Mood): Answer {
    match mood
    case Unreachable => NetError
    case Failing(status, text) => Reply(if status < 400 then 400 else status, "", None, text, true)
    case Healthy(readable) =>
      if cached.Some? && Revalidates(v, cached.value) then Reply(NOT_MODIFIED, v.etag, v.modified, "", true)
      else Reply(200, v.etag, v.modified, v.body, readable)
  }

  // ----- any number of fetchers ----------------------------------------------------------

  datatype Call = Call(cached: Option<Entry>, attempt: nat, toStore: Option<Fetched>)

  /** A response handed to a caller, with the origin's body at that instant. */
  datatype Served = Served(fetched: Fetched, current: string)

  datatype Sys = Sys(
    versions: seq<Version>,      // the last is current
    records: seq<Record>,        // every cache row ever written
    calls: map<nat, Call>,
    served: seq<Served>)

  datatype Step =
    | Change(v: Version)
    | Open(c: nat, read: Option<nat>, now: int)
    | Request(c: nat, mood: Mood, slept: bool)
    | Store(c: nat, now: int, fails: bool)

  function Initial(v: Version): Sys {
    Sys([v], [], map[], [])
  }

  function Current(s: Sys): Version
    requires s.versions != []
  {
    s.versions[|s.versions| - 1]
  }

  /** A lookup may miss, or return any row ever written, however stale. */
  function Lookup(s: Sys, read: Option<nat>, now: int): Option<Entry> {
    if read.Some? && read.value < |s.records| then Usable(Some(s.records[read.value]), now) else None
  }

  function Next(maxRetries: nat, s: Sys, step: Step): (t: Sys)
    requires s.versions != []
    ensures t.versions != [] && s.versions <= t.versions
  {
    match step
    case Change(v) => s.(versions := s.versions + [v])
    case Open(c, read, now) =>
      if c in s.calls then s else s.(calls := s.calls[c := Call(Lookup(s, read, now), 0, None)])
    case Request(c, mood, slept) =>
      if c !in s.calls || s.calls[c].toStore.Some? then s
      else
        var call := s.calls[c];
        var out := Settle(call.cached, call.attempt, maxRetries, OriginAnswer(Current(s), call.cached, mood), slept);
        match out {
          case Again => s.(calls := s.calls[c := call.(attempt := call.attempt + 1)])
          case Failed => s.(calls := s.calls - {c})
          case Done(f) =>
            s.(served := s.served + [Served(f, Current(s).body)],
               calls := if Cacheable(f) then s.calls[c := call.(toStore := Some(f))] else s.calls - {c})
        }
    case Store(c, now, fails) =>
      if c !in s.calls || s.calls[c].toStore.None? then s
      else
        s.(calls := s.calls - {c},
           records := if fails then s.records else s.records + [RecordOf(s.calls[c].toStore.value, now)])
  }

  function Run(maxRetries: nat, v: Version, steps: seq<Step>): (s: Sys)
    ensures s.versions != []
  {
    if steps == [] then Initial(v) else Next(maxRetries, Run(maxRetries, v, steps[..|steps| - 1]), steps[|steps| - 1])
  }

  // ----- which histories are served current -----------------------------------------------

  /** The entry a fetch of version v stores. */
  function EntryOf(v: Version): Entry {
    Entry(v.etag, v.modified, v.body)
  }

  /** This entry was stored from one of the versions. */
  ghost predicate Genuine(versions: seq<Version>, e: Entry) {
    exists i :: 0 <= i < |versions| && HasValidator(versions[i].etag, versions[i].modified) && e == EntryOf(versions[i])
  }

  ghost predicate CallOk(versions: seq<Version>, call: Call) {
    && (call.cached.Some? ==> Genuine(versions, call.cached.value))
    && (call.toStore.Some? ==> Genuine(versions, StoredEntry(call.toStore.value)))
  }

  function StoredEntry(f: Fetched): Entry {
    Entry(f.etag, f.modified, f.body)
  }

  ghost predicate CacheGenuine(s: Sys) {
    && (forall k :: 0 <= k < |s.records| ==> Genuine(s.versions, s.records[k].entry))
    && (forall c :: c in s.calls ==> CallOk(s.versions, s.calls[c]))
  }

  ghost predicate ServedCurrent(s: Sys) {
    forall k :: 0 <= k < |s.served| && (s.served[k].fetched.fromCache || 200 <= s.served[k].fetched.status < 300) ==>
      s.served[k].fetched.body == s.served[k].current
  }

  /** Version j passes for the earlier version i, whose validators a cache holds, with another body. */
  predicate Confused(versions: seq<Version>, i: nat, j: nat)
    requires i < j < |versions|
  {
    && HasValidator(versions[i].etag, versions[i].modified)
    && Revalidates(versions[j], EntryOf(versions[i]))
    && versions[i].body != versions[j].body
  }

  ghost predicate NeverConfused(versions: seq<Version>) {
    forall i, j :: 0 <= i < j < |versions| ==> !Confused(versions, i, j)
  }

  lemma {:induction false} GenuineGrows(versions: seq<Version>, longer: seq<Version>, e: Entry)
    requires versions <= longer && Genuine(versions, e)
    ensures Genuine(longer, e)
  {
    var i :| 0 <= i < |versions| && HasValidator(versions[i].etag, versions[i].modified) && e == EntryOf(versions[i]);
    assert longer[i] == versions[i];
  }

  lemma {:induction false} ChangeKeeps(s: Sys, v: Version)
    requires CacheGenuine(s)
    ensures CacheGenuine(s.(versions := s.versions + [v]))
  {
    var longer := s.versions + [v];
    forall e | Genuine(s.versions, e) ensures Genuine(longer, e) {
      GenuineGrows(s.versions, longer, e);
    }
    assert forall c :: c in s.calls ==> CallOk(s.versions, s.calls[c]) ==> CallOk(longer, s.calls[c]);
  }

  /** A stored entry that the current version revalidates has the current body. */
  lemma {:induction false} RevalidatedIsCurrent(versions: seq<Version>, e: Entry)
    requires versions != [] && NeverConfused(versions) && Genuine(versions, e)
    requires Revalidates(versions[|versions| - 1], e)
    ensures e.body == versions[|versions| - 1].body
  {
    var i :| 0 <= i < |versions| && HasValidator(versions[i].etag, versions[i].modified) && e == EntryOf(versions[i]);
    if i < |versions| - 1 {
      assert !Confused(versions, i, |versions| - 1);
    }
  }

  /** What one request may hand over: a cached body that is still current, or the current one. */
  lemma {:induction false} RequestServesCurrent(versions: seq<Version>, call: Call, maxRetries: nat, mood: Mood, slept: bool)
    requires versions != [] && NeverConfused(versions) && CallOk(versions, call)
    ensures var v := versions[|versions| - 1];
            var out := Settle(call.cached, call.attempt, maxRetries, OriginAnswer(v, call.cached, mood), slept);
            && (out.Done? && (out.fetched.fromCache || 200 <= out.fetched.status < 300) ==> out.fetched.body == v.body)
            && (out.Done? && Cacheable(out.fetched) ==> Genuine(versions, StoredEntry(out.fetched)))
  {
    var v := versions[|versions| - 1];
    if call.cached.Some? && Revalidates(v, call.cached.value) {
      RevalidatedIsCurrent(versions, call.cached.value);
    }
    assert HasValidator(v.etag, v.modified) ==> Genuine(versions, EntryOf(v));
  }

  lemma {:induction false} StepKeeps(maxRetries: nat, s: Sys, step: Step)
    requires s.versions != [] && CacheGenuine(s) && ServedCurrent(s)
    requires NeverConfused(s.versions)
    ensures CacheGenuine(Next(maxRetries, s, step)) && ServedCurrent(Next(maxRetries, s, step))
  {
    match step
    case Change(v) => ChangeKeeps(s, v);
    case Open(c, read, now) =>
    case Request(c, mood, slept) =>
      if c in s.calls {
        RequestServesCurrent(s.versions, s.calls[c], maxRetries, mood, slept);
      }
    case Store(c, now, fails) =>
      assert c in s.calls ==> CallOk(s.versions, s.calls[c]);
  }

  lemma {:induction false} PrefixNeverConfused(versions: seq<Version>, longer: seq<Version>)
    requires versions <= longer && NeverConfused(longer)
    ensures NeverConfused(versions)
  {
    forall i, j | 0 <= i < j < |versions| ensures !Confused(versions, i, j) {
      assert !Confused(longer, i, j);
    }
  }

  lemma {:induction false} InvRun(maxRetries: nat, v: Version, steps: seq<Step>)
    requires NeverConfused(Run(maxRetries, v, steps).versions)
    ensures CacheGenuine(Run(maxRetries, v, steps)) && ServedCurrent(Run(maxRetries, v, steps))
  {
    if steps != [] {
      var s := Run(maxRetries, v, steps[..|steps| - 1]);
      PrefixNeverConfused(s.versions, Run(maxRetries, v, steps).versions);
      InvRun(maxRetries, v, steps[..|steps| - 1]);
      StepKeeps(maxRetries, s, steps[|steps| - 1]);
    }
  }

  /** The origin names every version and never two different bodies alike. */
  predicate Distinguishing(versions: seq<Version>) {
    forall i, j :: 0 <= i < |versions| && 0 <= j < |versions| ==>
      versions[i].etag != "" && (versions[i].etag == versions[j].etag ==> versions[i].body == versions[j].body)
  }

  /**
   * Against an origin with distinct tags for distinct bodies, every successful response is what a
   * plain fetch at the same instant would have brought, over any run of content changes, cache
   * misses, stale rows, expiries and failed writes.
   */
  lemma {:induction false} CachedIsPlain(maxRetries: nat, v: Version, steps: seq<Step>, k: nat)
    requires Distinguishing(Run(maxRetries, v, steps).versions)
    requires k < |Run(maxRetries, v, steps).served|
    ensures var r := Run(maxRetries, v, steps).served[k];
            r.fetched.fromCache || 200 <= r.fetched.status < 300 ==> r.fetched.body == r.current
  {
    var versions := Run(maxRetries, v, steps).versions;
    forall i, j | 0 <= i < j < |versions| ensures !Confused(versions, i, j) {
      assert versions[i].etag == versions[j].etag ==> versions[i].body == versions[j].body;
    }
    InvRun(maxRetries, v, steps);
  }

  // ----- a run for every confusion ----------------------------------------------------------

  function Changes(versions: seq<Version>): seq<Step> {
    if versions == [] then [] else Changes(versions[..|versions| - 1]) + [Change(versions[|versions| - 1])]
  }

  lemma {:induction false} RunOnto(maxRetries: nat, v: Version, steps: seq<Step>, step: Step)
    ensures Run(maxRetries, v, steps + [step]) == Next(maxRetries, Run(maxRetries, v, steps), step)
  {
    assert (steps + [step])[..|steps + [step]| - 1] == steps;
  }

  lemma {:induction false} ChangesOnly(maxRetries: nat, v: Version, steps: seq<Step>, more: seq<Version>)
    ensures var s := Run(maxRetries, v, steps);
            Run(maxRetries, v, steps + Changes(more)) == s.(versions := s.versions + more)
  {
    var s := Run(maxRetries, v, steps);
    if more == [] {
      assert steps + Changes(more) == steps;
      assert s.versions + more == s.versions;
    } else {
      var front, last := more[..|more| - 1], more[|more| - 1];
      ChangesOnly(maxRetries, v, steps, front);
      RunOnto(maxRetries, v, steps + Changes(front), Change(last));
      assert steps + Changes(more) == (steps + Changes(front)) + [Change(last)] by {
        assert Changes(more) == Changes(front) + [Change(last)];
      }
      assert (s.versions + front) + [last] == s.versions + more by {
        assert more == front + [last];
      }
    }
  }

  function PlainAnswer(v: Version): Fetched {
    Fetched(200, v.etag, v.modified, v.body, false)
  }

  /** Nothing cached, nobody fetching: a healthy request is answered with the current version. */
  lemma {:induction false} AsksPlainly(maxRetries: nat, s: Sys)
    requires s.versions != [] && s.calls == map[] && HasValidator(Current(s).etag, Current(s).modified)
    ensures var t := Next(maxRetries, Next(maxRetries, s, Open(0, None, 0)), Request(0, Healthy(true), true));
            && t.versions == s.versions && t.records == s.records
            && t.calls == map[0 := Call(None, 0, Some(PlainAnswer(Current(s))))]
  {
    var begun := Next(maxRetries, s, Open(0, None, 0));
    assert begun.calls == map[0 := Call(None, 0, None)] && Current(begun) == Current(s);
  }

  lemma {:induction false} StoresAnswer(maxRetries: nat, t: Sys, v: Version)
    requires t.versions != [] && t.records == [] && t.calls == map[0 := Call(None, 0, Some(PlainAnswer(v)))]
    ensures var u := Next(maxRetries, t, Store(0, 0, false));
            u.versions == t.versions && u.calls == map[] && u.records == [Record(EntryOf(v), Unix(ETAG_TTL))]
  {
    assert RecordOf(PlainAnswer(v), 0) == Record(EntryOf(v), Unix(ETAG_TTL));
  }

  /** So one fetch stores the current version. */
  lemma {:induction false} StoresCurrent(maxRetries: nat, v: Version, steps: seq<Step>) returns (longer: seq<Step>)
    requires var s := Run(maxRetries, v, steps);
             s.records == [] && s.calls == map[] && HasValidator(Current(s).etag, Current(s).modified)
    ensures var s, t := Run(maxRetries, v, steps), Run(maxRetries, v, longer);
            && t.versions == s.versions && t.calls == map[]
            && t.records == [Record(EntryOf(Current(s)), Unix(ETAG_TTL))]
  {
    var s := Run(maxRetries, v, steps);
    var open, ask, store := Open(0, None, 0), Request(0, Healthy(true), true), Store(0, 0, false);
    AsksPlainly(maxRetries, s);
    RunOnto(maxRetries, v, steps, open);
    RunOnto(maxRetries, v, steps + [open], ask);
    StoresAnswer(maxRetries, Run(maxRetries, v, steps + [open] + [ask]), Current(s));
    RunOnto(maxRetries, v, steps + [open] + [ask], store);
    longer := steps + [open] + [ask] + [store];
  }

  /** A fetch that finds the one row, revalidated by a version with another body, is served stale. */
  lemma {:induction false} ServesStale(maxRetries: nat, v: Version, steps: seq<Step>, e: Entry) returns (longer: seq<Step>)
    requires var s := Run(maxRetries, v, steps);
             && s.records == [Record(e, Unix(ETAG_TTL))] && s.calls == map[]
             && Revalidates(Current(s), e) && e.body != Current(s).body
    ensures var s, t := Run(maxRetries, v, steps), Run(maxRetries, v, longer);
            t.versions == s.versions && !ServedCurrent(t)
  {
    var s := Run(maxRetries, v, steps);
    var open, ask := Open(1, Some(0), 0), Request(1, Healthy(true), true);
    longer := steps + [open] + [ask];
    RunOnto(maxRetries, v, steps, open);
    assert Lookup(s, Some(0), 0) == Some(e);
    var asked := Run(maxRetries, v, steps + [open]);
    assert asked.calls == map[1 := Call(Some(e), 0, None)] && Current(asked) == Current(s);
    RunOnto(maxRetries, v, steps + [open], ask);
    var t := Run(maxRetries, v, longer);
    var f := Fetched(NOT_MODIFIED, Current(s).etag, Current(s).modified, e.body, true);
    assert t.served == s.served + [Served(f, Current(s).body)];
    assert t.served[|s.served|] == Served(f, Current(s).body);
  }

  /** The content goes through the versions of a history from one point to another. */
  lemma {:induction false} ChangesTo(maxRetries: nat, steps: seq<Step>, versions: seq<Version>, from: nat, to: nat)
    requires from <= to <= |versions| && versions != []
    requires Run(maxRetries, versions[0], steps).versions == versions[..from]
    ensures var s, t := Run(maxRetries, versions[0], steps), Run(maxRetries, versions[0], steps + Changes(versions[from..to]));
            t == s.(versions := versions[..to])
  {
    ChangesOnly(maxRetries, versions[0], steps, versions[from..to]);
    assert versions[..from] + versions[from..to] == versions[..to];
  }

  lemma {:induction false} FetchedAt(maxRetries: nat, versions: seq<Version>, i: nat) returns (steps: seq<Step>)
    requires i < |versions| && HasValidator(versions[i].etag, versions[i].modified)
    ensures var s := Run(maxRetries, versions[0], steps);
            s.versions == versions[..i + 1] && s.calls == map[]
            && s.records == [Record(EntryOf(versions[i]), Unix(ETAG_TTL))]
  {
    ChangesTo(maxRetries, [], versions, 1, i + 1);
    var begun := [] + Changes(versions[1..i + 1]);
    assert Current(Run(maxRetries, versions[0], begun)) == versions[i];
    steps := StoresCurrent(maxRetries, versions[0], begun);
  }

  lemma {:induction false} StaleAt(maxRetries: nat, versions: seq<Version>, i: nat, j: nat) returns (steps: seq<Step>)
    requires i < j < |versions| && Confused(versions, i, j)
    ensures var s := Run(maxRetries, versions[0], steps); s.versions == versions[..j + 1] && !ServedCurrent(s)
  {
    var stored := FetchedAt(maxRetries, versions, i);
    ChangesTo(maxRetries, stored, versions, i + 1, j + 1);
    var changed := stored + Changes(versions[i + 1..j + 1]);
    assert Current(Run(maxRetries, versions[0], changed)) == versions[j];
    steps := ServesStale(maxRetries, versions[0], changed, EntryOf(versions[i]));
  }

  /** The run that shows a confusion: fetch and store at version i, refetch at version j. */
  lemma {:induction false} StaleRun(maxRetries: nat, versions: seq<Version>, i: nat, j: nat) returns (steps: seq<Step>)
    requires i < j < |versions| && Confused(versions, i, j)
    ensures Run(maxRetries, versions[0], steps).versions == versions
    ensures !ServedCurrent(Run(maxRetries, versions[0], steps))
  {
    var stale := StaleAt(maxRetries, versions, i, j);
    ChangesTo(maxRetries, stale, versions, j + 1, |versions|);
    steps := stale + Changes(versions[j + 1..|versions|]);
    assert versions[..|versions|] == versions;
  }

  /** In every run over this history of the content, every success brings the body of its instant. */
  ghost predicate AlwaysCurrent(maxRetries: nat, versions: seq<Version>)
    requires versions != []
  {
    forall steps ::
      Run(maxRetries, versions[0], steps).versions == versions ==> ServedCurrent(Run(maxRetries, versions[0], steps))
  }

  /**
   * Some run over a history serves a stale body if and only if a later version revalidates the
   * entry of an earlier one whose body was another.
   */
  lemma {:induction false} StaleExactlyWhenRevalidated(maxRetries: nat, versions: seq<Version>)
    requires versions != []
    ensures !AlwaysCurrent(maxRetries, versions) <==> !NeverConfused(versions)
  {
    if NeverConfused(versions) {
      forall steps | Run(maxRetries, versions[0], steps).versions == versions
        ensures ServedCurrent(Run(maxRetries, versions[0], steps))
      {
        InvRun(maxRetries, versions[0], steps);
      }
    } else {
      var i, j :| 0 <= i < j < |versions| && Confused(versions, i, j);
      var steps := StaleRun(maxRetries, versions, i, j);
    }
  }

  /** Last-Modified alone is not enough: a second change within its second. */
  lemma {:induction false} LastModifiedAloneGoesStale(maxRetries: nat, at: int, before: string, after: string)
    requires before != after
    ensures !AlwaysCurrent(maxRetries, [Version("", Some(at), before), Version("", Some(at), after)])
  {
    var history := [Version("", Some(at), before), Version("", Some(at), after)];
    assert Confused(history, 0, 1);
    StaleExactlyWhenRevalidated(maxRetries, history);
  }
}
