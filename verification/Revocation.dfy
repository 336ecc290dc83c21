/**
 * How long a revoked preview stays visible. Each isolate of the preview Worker caches, per site,
 * whether the key-value store holds a passcode hash. Times are milliseconds. The store may answer
 * with a value up to `lag` old; lag 0 is an immediately consistent store.
 */
module Revocation {
  import opened Common

  const REVOCATION_TTL := 60_000

  datatype Cached = Cached(expiresAt: int, issued: bool)

  /** A live entry; an isolate's keys are sites, those of the whole fleet an isolate and a site. */
  predicate Hit<K(==)>(cache: map<K, Cached>, key: K, now: int) {
    key in cache && cache[key].expiresAt > now
  }

  predicate Issued(stored: Option<string>) {
    stored.Some? && stored.value != ""
  }

  /** A live entry answers unchanged; otherwise the store does, and is remembered from `now`. */
  predicate Asked(
      cache: map<string, Cached>, site: string, now: int, stored: Option<string>, after: map<string, Cached>, issued: bool)
  {
    if site in cache && cache[site].expiresAt > now then issued == cache[site].issued && after == cache
    else
      && (issued <==> stored.Some? && stored.value != "")
      && after == cache[site := Cached(now + 60_000, issued)]
  }

  /** What a request brings, after the token and cookie signatures were checked. */
  datatype Request = Request(opValid: bool, cookieValid: bool, hasQuery: bool, queryMatches: bool)

  datatype Response =
    | Asset(setCookie: bool)
    | NotFound
    | Redirect
    | PasscodeForm
    | Revoked
    | Forbidden

  class Isolate {
    var cache: map<string, Cached>

    constructor ()
      ensures cache == map[]
    {
      cache := map[];
    }

    /** `now` is read on entry, before the store is asked. */
    method PasscodeStillIssued(site: string, now: int, stored: Option<string>) returns (issued: bool)
      modifies this
      ensures Asked(old(cache), site, now, stored, cache, issued)
    {
      if site in cache && cache[site].expiresAt > now {
        return cache[site].issued;
      }
      issued := stored.Some? && stored.value != "";
      cache := cache[site := Cached(now + REVOCATION_TTL, issued)];
    }

    /**
     * An asset (or its absence) is shown exactly to a request with a valid operator token or
     * cookie whose site is still issued; without either, the cache is not even consulted.
     */
    method ServeAsset(site: string, req: Request, now: int, stored: Option<string>, found: bool) returns (r: Response)
      modifies this
      ensures r.Asset? || r.NotFound? <==>
                (req.opValid || req.cookieValid)
                && (if Hit(old(cache), site, now) then old(cache)[site].issued else Issued(stored))
      ensures r.Revoked? <==> (req.opValid || req.cookieValid) && !(r.Asset? || r.NotFound?)
      ensures r.Asset? ==> found && r.setCookie == req.opValid
      ensures r.Redirect? <==>
                !req.opValid && !req.cookieValid && req.hasQuery && Issued(stored) && req.queryMatches
      ensures r.PasscodeForm? <==> !req.opValid && !req.cookieValid && !r.Redirect?
      ensures r.NotFound? ==> !found
      ensures !req.opValid && !req.cookieValid ==> cache == old(cache)
    {
      if req.opValid {
        var issued := PasscodeStillIssued(site, now, stored);
        if !issued {
          return Revoked;
        }
        return if found then Asset(true) else NotFound;
      }
      if !req.cookieValid {
        if req.hasQuery {
          var ok := stored.Some? && stored.value != "" && req.queryMatches;
          if ok {
            return Redirect;
          }
        }
        return PasscodeForm;
      }
      var issued := PasscodeStillIssued(site, now, stored);
      if !issued {
        return Revoked;
      }
      return if found then Asset(false) else NotFound;
    }

    method ServeScreenshot(site: string, cookieValid: bool, now: int, stored: Option<string>, found: bool)
      returns (r: Response)
      modifies this
      ensures r.Asset? || r.NotFound? <==>
                cookieValid && (if Hit(old(cache), site, now) then old(cache)[site].issued else Issued(stored))
      ensures r.Forbidden? <==> !(r.Asset? || r.NotFound?)
      ensures (r.Asset? ==> found && !r.setCookie) && (r.NotFound? ==> !found)
      ensures !cookieValid ==> cache == old(cache)
    {
      if !cookieValid {
        return Forbidden;
      }
      var issued := PasscodeStillIssued(site, now, stored);
      if !issued {
        return Forbidden;
      }
      return if found then Asset(false) else NotFound;
    }
  }

  // ----- any number of isolates over one store -------------------------------------------

  /** The store's content from `at` until the next snapshot. */
  datatype Snapshot = Snapshot(at: int, store: map<string, string>)

  /** A request that missed its isolate's cache at `now` and waits for the store. */
  datatype Waiting = Waiting(isolate: nat, site: string, now: int)

  datatype Verdict = Verdict(site: string, at: int, issued: bool)

  datatype Sys = Sys(
    clock: int,
    snapshots: seq<Snapshot>,
    caches: map<(nat, string), Cached>,
    waiting: map<nat, Waiting>,
    verdicts: seq<Verdict>)

  datatype Step =
    | Tick(d: nat)
    | KvWrite(store: map<string, string>)
    | Begin(r: nat, isolate: nat, site: string)
    | Finish(r: nat, read: nat)
    | Evict(isolate: nat, site: string)

  function Initial(clock: int, store: map<string, string>): Sys {
    Sys(clock, [Snapshot(clock, store)], map[], map[], [])
  }

  function Stored(snapshot: Snapshot, site: string): Option<string> {
    if site in snapshot.store then Some(snapshot.store[site]) else None
  }

  /** Snapshot i was the store's content at instant u, as seen at `clock`. */
  predicate CurrentAt(snapshots: seq<Snapshot>, i: nat, u: int, clock: int) {
    && i < |snapshots|
    && snapshots[i].at <= u <= clock
    && (i + 1 < |snapshots| ==> u <= snapshots[i + 1].at)
  }

  /** A store read at `clock` answers with a snapshot that was current at most `lag` ago. */
  predicate Answerable(s: Sys, read: nat, lag: nat) {
    read < |s.snapshots| && (read + 1 < |s.snapshots| ==> s.clock - lag <= s.snapshots[read + 1].at)
  }

  function Next(lag: nat, s: Sys, step: Step): Sys {
    match step
    case Tick(d) => s.(clock := s.clock + d)
    case KvWrite(store) => s.(snapshots := s.snapshots + [Snapshot(s.clock, store)])
    case Begin(r, isolate, site) =>
      if r in s.waiting then s
      else if Hit(s.caches, (isolate, site), s.clock) then
        s.(verdicts := s.verdicts + [Verdict(site, s.clock, s.caches[(isolate, site)].issued)])
      else s.(waiting := s.waiting[r := Waiting(isolate, site, s.clock)])
    case Finish(r, read) =>
      if r !in s.waiting || !Answerable(s, read, lag) then s
      else
        var w := s.waiting[r];
        var issued := Issued(Stored(s.snapshots[read], w.site));
        s.(waiting := s.waiting - {r},
           caches := s.caches[(w.isolate, w.site) := Cached(w.now + REVOCATION_TTL, issued)],
           verdicts := s.verdicts + [Verdict(w.site, s.clock, issued)])
    case Evict(isolate, site) => s.(caches := s.caches - {(isolate, site)})
  }

  /** The fleet's cache when only this isolate runs. */
  function OfIsolate(isolate: nat, cache: map<string, Cached>): map<(nat, string), Cached> {
    map site | site in cache :: (isolate, site) := cache[site]
  }

  /** One request with nothing else running: the store answers `d` later. */
  function Alone(lag: nat, isolate: nat, cache: map<string, Cached>, store: map<string, string>, site: string, now: int, d: nat): Sys {
    var s := OneIsolate(isolate, cache, store, now, now, map[]);
    Next(lag, Next(lag, Next(lag, s, Begin(0, isolate, site)), Tick(d)), Finish(0, 0))
  }

  lemma {:induction false} AloneHits(
      lag: nat, isolate: nat, cache: map<string, Cached>, store: map<string, string>, site: string, now: int, d: nat)
    requires Hit(cache, site, now)
    ensures var t := Alone(lag, isolate, cache, store, site, now, d);
            && t.caches == OfIsolate(isolate, cache) && t.waiting == map[]
            && t.verdicts == [Verdict(site, now, cache[site].issued)]
  {
    var s := Sys(now, [Snapshot(now, store)], OfIsolate(isolate, cache), map[], []);
    assert Hit(s.caches, (isolate, site), now);
    assert Next(lag, s, Begin(0, isolate, site)).waiting == map[];
  }

  lemma {:induction false} Remembered(isolate: nat, cache: map<string, Cached>, site: string, c: Cached)
    ensures OfIsolate(isolate, cache)[(isolate, site) := c] == OfIsolate(isolate, cache[site := c])
  {
  }

  /** A fleet of one isolate over a store that does not change, with these requests waiting. */
  function OneIsolate(
      isolate: nat, cache: map<string, Cached>, store: map<string, string>, at: int, clock: int, waiting: map<nat, Waiting>): Sys
  {
    Sys(clock, [Snapshot(at, store)], OfIsolate(isolate, cache), waiting, [])
  }

  lemma {:induction false} MissWaits(
      lag: nat, isolate: nat, cache: map<string, Cached>, store: map<string, string>, site: string, now: int)
    requires !Hit(cache, site, now)
    ensures Next(lag, OneIsolate(isolate, cache, store, now, now, map[]), Begin(0, isolate, site))
            == OneIsolate(isolate, cache, store, now, now, map[0 := Waiting(isolate, site, now)])
  {
    assert !Hit(OfIsolate(isolate, cache), (isolate, site), now);
  }

  lemma {:induction false} WaitEnds(
      lag: nat, isolate: nat, cache: map<string, Cached>, store: map<string, string>, site: string, now: int, clock: int)
    ensures var issued := Issued(Stored(Snapshot(now, store), site));
            var t := Next(lag, OneIsolate(isolate, cache, store, now, clock, map[0 := Waiting(isolate, site, now)]), Finish(0, 0));
            && t.caches == OfIsolate(isolate, cache)[(isolate, site) := Cached(now + REVOCATION_TTL, issued)]
            && t.waiting == map[] && t.verdicts == [Verdict(site, clock, issued)]
  {
    assert map[0 := Waiting(isolate, site, now)] - {0} == map[];
  }

  lemma {:induction false} AloneMisses(
      lag: nat, isolate: nat, cache: map<string, Cached>, store: map<string, string>, site: string, now: int, d: nat)
    requires !Hit(cache, site, now)
    ensures var t := Alone(lag, isolate, cache, store, site, now, d);
            var issued := Issued(Stored(Snapshot(now, store), site));
            && t.caches == OfIsolate(isolate, cache[site := Cached(now + REVOCATION_TTL, issued)]) && t.waiting == map[]
            && t.verdicts == [Verdict(site, now + d, issued)]
  {
    MissWaits(lag, isolate, cache, store, site, now);
    WaitEnds(lag, isolate, cache, store, site, now, now + d);
    Remembered(isolate, cache, site, Cached(now + REVOCATION_TTL, Issued(Stored(Snapshot(now, store), site))));
  }

  /** What the isolate's method does is what the fleet's steps do when nothing else runs. */
  lemma {:induction false} AloneAsks(
      lag: nat, isolate: nat, cache: map<string, Cached>, store: map<string, string>, site: string, now: int, d: nat,
      after: map<string, Cached>, issued: bool)
    requires var stored := if site in store then Some(store[site]) else None;
             Asked(cache, site, now, stored, after, issued)
    ensures var t := Alone(lag, isolate, cache, store, site, now, d);
            && t.caches == OfIsolate(isolate, after) && t.waiting == map[]
            && t.verdicts == [Verdict(site, if Hit(cache, site, now) then now else now + d, issued)]
  {
    if Hit(cache, site, now) {
      AloneHits(lag, isolate, cache, store, site, now, d);
    } else {
      AloneMisses(lag, isolate, cache, store, site, now, d);
    }
  }

  function Run(lag: nat, s: Sys, steps: seq<Step>): Sys {
    if steps == [] then s else Next(lag, Run(lag, s, steps[..|steps| - 1]), steps[|steps| - 1])
  }

  /** At instant u, snapshot i said of `site` what `issued` says. */
  predicate Said(snapshots: seq<Snapshot>, clock: int, site: string, issued: bool, i: nat, u: int) {
    CurrentAt(snapshots, i, u, clock) && Issued(Stored(snapshots[i], site)) == issued
  }

  /** The store said so at an instant after `since`. */
  ghost predicate SaidSince(snapshots: seq<Snapshot>, clock: int, site: string, issued: bool, since: int, until: int) {
    exists i: nat, u: int :: Said(snapshots, clock, site, issued, i, u) && since < u <= until
  }

  ghost predicate Inv(lag: nat, s: Sys) {
    && s.snapshots != []
    && (forall i :: 0 <= i < |s.snapshots| ==> s.snapshots[i].at <= s.clock)
    && (forall i, j :: 0 <= i < j < |s.snapshots| ==> s.snapshots[i].at <= s.snapshots[j].at)
    && (forall r :: r in s.waiting ==> s.waiting[r].now <= s.clock)
    && (forall k :: k in s.caches ==> CacheOk(lag, s, k))
    && (forall k :: 0 <= k < |s.verdicts| ==> VerdictOk(lag, s, s.verdicts[k]))
  }

  ghost predicate CacheOk(lag: nat, s: Sys, k: (nat, string))
    requires k in s.caches
  {
    var c := s.caches[k];
    SaidSince(s.snapshots, s.clock, k.1, c.issued, c.expiresAt - REVOCATION_TTL - lag - 1, s.clock)
  }

  ghost predicate VerdictOk(lag: nat, s: Sys, v: Verdict) {
    v.at <= s.clock && SaidSince(s.snapshots, s.clock, v.site, v.issued, v.at - REVOCATION_TTL - lag, v.at)
  }

  /** What was said stays said as the clock moves and the store is written. */
  lemma {:induction false} SaidStays(s: Sys, t: Sys, site: string, issued: bool, since: int, until: int, later: int)
    requires SaidSince(s.snapshots, s.clock, site, issued, since, until)
    requires s.clock <= t.clock && until <= later
    requires t.snapshots == s.snapshots || exists store :: t.snapshots == s.snapshots + [Snapshot(s.clock, store)]
    ensures SaidSince(t.snapshots, t.clock, site, issued, since, later)
  {
    var i: nat, u: int :| Said(s.snapshots, s.clock, site, issued, i, u) && since < u <= until;
    assert t.snapshots[i] == s.snapshots[i];
    assert Said(t.snapshots, t.clock, site, issued, i, u);
  }

  lemma {:induction false} QuietKeeps(lag: nat, s: Sys, t: Sys)
    requires Inv(lag, s) && t.snapshots != [] && s.clock <= t.clock
    requires t.snapshots == s.snapshots || exists store :: t.snapshots == s.snapshots + [Snapshot(s.clock, store)]
    requires t.verdicts == s.verdicts
    requires forall k :: k in t.caches ==> k in s.caches && t.caches[k] == s.caches[k]
    requires forall r :: r in t.waiting ==> t.waiting[r].now <= t.clock
    ensures Inv(lag, t)
  {
    forall k | k in t.caches ensures CacheOk(lag, t, k) {
      assert CacheOk(lag, s, k);
      SaidStays(s, t, k.1, s.caches[k].issued, s.caches[k].expiresAt - REVOCATION_TTL - lag - 1, s.clock, t.clock);
    }
    forall k | 0 <= k < |t.verdicts| ensures VerdictOk(lag, t, t.verdicts[k]) {
      var v := s.verdicts[k];
      assert VerdictOk(lag, s, v);
      SaidStays(s, t, v.site, v.issued, v.at - REVOCATION_TTL - lag, v.at, v.at);
    }
  }

  lemma {:induction false} HitIsRecent(lag: nat, s: Sys, k: (nat, string))
    requires Inv(lag, s) && k in s.caches && s.caches[k].expiresAt > s.clock
    ensures VerdictOk(lag, s, Verdict(k.1, s.clock, s.caches[k].issued))
  {
    var c := s.caches[k];
    assert CacheOk(lag, s, k);
    var i: nat, u: int :| Said(s.snapshots, s.clock, k.1, c.issued, i, u)
                          && c.expiresAt - REVOCATION_TTL - lag - 1 < u <= s.clock;
    assert s.clock - REVOCATION_TTL - lag < u;
  }

  lemma {:induction false} AddVerdict(lag: nat, s: Sys, v: Verdict)
    requires Inv(lag, s) && VerdictOk(lag, s, v)
    ensures Inv(lag, s.(verdicts := s.verdicts + [v]))
  {
    var t := s.(verdicts := s.verdicts + [v]);
    forall k | k in t.caches ensures CacheOk(lag, t, k) {
      assert CacheOk(lag, s, k);
    }
    forall k | 0 <= k < |t.verdicts| ensures VerdictOk(lag, t, t.verdicts[k]) {
      assert VerdictOk(lag, s, t.verdicts[k]);
    }
  }

  lemma {:induction false} BeginKeeps(lag: nat, s: Sys, r: nat, isolate: nat, site: string)
    requires Inv(lag, s)
    ensures Inv(lag, Next(lag, s, Begin(r, isolate, site)))
  {
    var t := Next(lag, s, Begin(r, isolate, site));
    if t.verdicts == s.verdicts {
      QuietKeeps(lag, s, t);
    } else {
      HitIsRecent(lag, s, (isolate, site));
      AddVerdict(lag, s, Verdict(site, s.clock, s.caches[(isolate, site)].issued));
    }
  }

  /** The instant a store answer was true at: as late as the next write allows. */
  lemma {:induction false} AnswerWasSaid(lag: nat, s: Sys, site: string, read: nat)
    requires Inv(lag, s) && Answerable(s, read, lag)
    ensures SaidSince(s.snapshots, s.clock, site, Issued(Stored(s.snapshots[read], site)), s.clock - lag - 1, s.clock)
  {
    var u := if read + 1 < |s.snapshots| then s.snapshots[read + 1].at else s.clock;
    assert Said(s.snapshots, s.clock, site, Issued(Stored(s.snapshots[read], site)), read, u);
  }

  lemma {:induction false} SaidEarlier(s: Sys, site: string, issued: bool, since: int, earlier: int)
    requires SaidSince(s.snapshots, s.clock, site, issued, since, s.clock) && earlier <= since
    ensures SaidSince(s.snapshots, s.clock, site, issued, earlier, s.clock)
  {
    var i: nat, u: int :| Said(s.snapshots, s.clock, site, issued, i, u) && since < u <= s.clock;
  }

  /** A store answer is a recent verdict. */
  lemma {:induction false} AnswerIsRecent(lag: nat, s: Sys, site: string, issued: bool)
    requires SaidSince(s.snapshots, s.clock, site, issued, s.clock - lag - 1, s.clock)
    ensures VerdictOk(lag, s, Verdict(site, s.clock, issued))
  {
    SaidEarlier(s, site, issued, s.clock - lag - 1, s.clock - REVOCATION_TTL - lag);
  }

  lemma {:induction false} AddCache(lag: nat, s: Sys, r: nat, k: (nat, string), c: Cached)
    requires Inv(lag, s)
    requires SaidSince(s.snapshots, s.clock, k.1, c.issued, c.expiresAt - REVOCATION_TTL - lag - 1, s.clock)
    ensures Inv(lag, s.(waiting := s.waiting - {r}, caches := s.caches[k := c]))
  {
    var t := s.(waiting := s.waiting - {r}, caches := s.caches[k := c]);
    forall j | j in t.caches ensures CacheOk(lag, t, j) {
      assert j != k ==> CacheOk(lag, s, j);
    }
    forall j | 0 <= j < |t.verdicts| ensures VerdictOk(lag, t, t.verdicts[j]) {
      assert VerdictOk(lag, s, t.verdicts[j]);
    }
  }

  lemma {:induction false} FinishKeeps(lag: nat, s: Sys, r: nat, read: nat)
    requires Inv(lag, s) && r in s.waiting && Answerable(s, read, lag)
    ensures Inv(lag, Next(lag, s, Finish(r, read)))
  {
    var w := s.waiting[r];
    AnswerWasSaid(lag, s, w.site, read);
    AnswerKept(lag, s, r, Issued(Stored(s.snapshots[read], w.site)));
  }

  lemma {:induction false} AnswerKept(lag: nat, s: Sys, r: nat, issued: bool)
    requires Inv(lag, s) && r in s.waiting
    requires SaidSince(s.snapshots, s.clock, s.waiting[r].site, issued, s.clock - lag - 1, s.clock)
    ensures var w := s.waiting[r];
            Inv(lag, s.(waiting := s.waiting - {r},
                        caches := s.caches[(w.isolate, w.site) := Cached(w.now + REVOCATION_TTL, issued)],
                        verdicts := s.verdicts + [Verdict(w.site, s.clock, issued)]))
  {
    var w := s.waiting[r];
    AnswerIsRecent(lag, s, w.site, issued);
    AddVerdict(lag, s, Verdict(w.site, s.clock, issued));
    AddAnswer(lag, s.(verdicts := s.verdicts + [Verdict(w.site, s.clock, issued)]), r, issued);
  }

  lemma {:induction false} AddAnswer(lag: nat, s: Sys, r: nat, issued: bool)
    requires Inv(lag, s) && r in s.waiting
    requires SaidSince(s.snapshots, s.clock, s.waiting[r].site, issued, s.clock - lag - 1, s.clock)
    ensures var w := s.waiting[r];
            Inv(lag, s.(waiting := s.waiting - {r},
                        caches := s.caches[(w.isolate, w.site) := Cached(w.now + REVOCATION_TTL, issued)]))
  {
    var w := s.waiting[r];
    SaidEarlier(s, w.site, issued, s.clock - lag - 1, w.now - lag - 1);
    AddCache(lag, s, r, (w.isolate, w.site), Cached(w.now + REVOCATION_TTL, issued));
  }

  lemma {:induction false} StepKeeps(lag: nat, s: Sys, step: Step)
    requires Inv(lag, s)
    ensures Inv(lag, Next(lag, s, step))
  {
    var t := Next(lag, s, step);
    match step
    case Tick(d) => QuietKeeps(lag, s, t);
    case KvWrite(store) => QuietKeeps(lag, s, t);
    case Evict(isolate, site) => QuietKeeps(lag, s, t);
    case Begin(r, isolate, site) => BeginKeeps(lag, s, r, isolate, site);
    case Finish(r, read) =>
      if t != s {
        FinishKeeps(lag, s, r, read);
      }
  }

  lemma {:induction false} InvRun(lag: nat, clock: int, store: map<string, string>, steps: seq<Step>)
    ensures Inv(lag, Run(lag, Initial(clock, store), steps))
  {
    if steps != [] {
      InvRun(lag, clock, store, steps[..|steps| - 1]);
      StepKeeps(lag, Run(lag, Initial(clock, store), steps[..|steps| - 1]), steps[|steps| - 1]);
    }
  }

  /**
   * Every verdict, admitting or denying, in every interleaving of requests over any number of
   * isolates, is what the store said at an instant less than 60 seconds (plus the store's own lag)
   * before it, and never of the future.
   */
  lemma {:induction false} VerdictsAreRecent(lag: nat, clock: int, store: map<string, string>, steps: seq<Step>, k: nat)
    requires k < |Run(lag, Initial(clock, store), steps).verdicts|
    ensures var s := Run(lag, Initial(clock, store), steps);
            var v := s.verdicts[k];
            exists i: nat, u: int :: Said(s.snapshots, s.clock, v.site, v.issued, i, u)
                                     && v.at - REVOCATION_TTL - lag < u <= v.at
  {
    InvRun(lag, clock, store, steps);
    var s := Run(lag, Initial(clock, store), steps);
    assert VerdictOk(lag, s, s.verdicts[k]);
  }

  /**
   * Once the store drops a site's hash at snapshot `gone` and never writes one again, nothing of
   * that site is authorised from 60 seconds (plus lag) after the deletion on.
   */
  lemma {:induction false} RevokedWithinTheMinute(
      lag: nat, clock: int, store: map<string, string>, steps: seq<Step>, site: string, gone: nat, k: nat)
    requires var s := Run(lag, Initial(clock, store), steps);
             && gone < |s.snapshots| && k < |s.verdicts|
             && (forall i :: gone <= i < |s.snapshots| ==> !Issued(Stored(s.snapshots[i], site)))
             && s.verdicts[k].site == site && s.verdicts[k].issued
    ensures var s := Run(lag, Initial(clock, store), steps);
            s.verdicts[k].at < s.snapshots[gone].at + REVOCATION_TTL + lag
  {
    InvRun(lag, clock, store, steps);
    var s := Run(lag, Initial(clock, store), steps);
    assert VerdictOk(lag, s, s.verdicts[k]);
    var i: nat, u: int :| Said(s.snapshots, s.clock, site, true, i, u) && s.verdicts[k].at - REVOCATION_TTL - lag < u;
    assert i < gone;
    assert i + 1 < gone ==> s.snapshots[i + 1].at <= s.snapshots[gone].at;
  }

  /** A site's hash is read just before its deletion; another request comes `later` after it. */
  function CachedThenDeleted(clock: int, site: string, later: nat): Sys {
    var read := Next(0, Next(0, Initial(clock, map[site := "hash"]), Begin(0, 0, site)), Finish(0, 0));
    Next(0, Next(0, Next(0, read, KvWrite(map[])), Tick(later)), Begin(1, 0, site))
  }

  /** The minute is used in full: the warm isolate authorises exactly as long as `later` is under it. */
  lemma {:induction false} MinuteIsTight(clock: int, site: string, later: nat)
    ensures var s := CachedThenDeleted(clock, site, later);
            |s.verdicts| == 2 && s.verdicts[1].issued && s.verdicts[1].at == clock + later <==> later < REVOCATION_TTL
  {
    var begun := Next(0, Initial(clock, map[site := "hash"]), Begin(0, 0, site));
    assert begun.waiting == map[0 := Waiting(0, site, clock)];
    var read := Next(0, begun, Finish(0, 0));
    assert read.caches == map[(0, site) := Cached(clock + REVOCATION_TTL, true)] && read.waiting == map[];
    assert read.verdicts == [Verdict(site, clock, true)];
  }
}
