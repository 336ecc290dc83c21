/**
 * The fleet-wide per-host throttle: one bucket row per host, claimed by a conditional
 * update. Times are nanoseconds, row attributes whole seconds, as in the table.
 */
module Throttle {
  import opened Common

  const SECOND := 1_000_000_000
  const SLOP := 50_000_000
  const THROTTLE_TTL := 604_800 * SECOND

  /** time.Time.Unix: whole seconds since the epoch, rounded down. */
  function Unix(ns: int): int { ns / SECOND }

  datatype Bucket = Bucket(lastFetchAt: int, expiresAt: int)

  /** `attribute_not_exists(lastFetchAt) OR lastFetchAt <= :gate`. */
  predicate Opens(row: Option<Bucket>, now: int, floor: int) {
    row.None? || row.value.lastFetchAt <= Unix(now - floor)
  }

  function Claimed(now: int): Bucket {
    Bucket(Unix(now), Unix(now + THROTTLE_TTL))
  }

  /** How long a refused caller sleeps; `returned` is the row a refusal carried, if any. */
  function EstimateWait(returned: Option<Bucket>, after: int, floor: int): int {
    if returned.None? then floor
    else
      var remaining := floor - (after - returned.value.lastFetchAt * SECOND);
      if remaining < 0 then 0 else remaining + SLOP
  }

  /** One try: the row it met, its clock, whether a refusal carries the row, its clock afterwards. */
  datatype Attempt = Attempt(row: Option<Bucket>, now: int, itemReturned: bool, after: int)

  function Pause(a: Attempt, floor: int): int {
    EstimateWait(if a.itemReturned then a.row else None, a.after, floor)
  }

  class HostThrottle {
    const defaultFloor: int
    var row: Option<Bucket>

    constructor (defaultFloor: int)
      ensures this.defaultFloor == defaultFloor && row == None
    {
      this.defaultFloor := defaultFloor;
      row := None;
    }

    method TryAcquire(now: int, floor: int, itemReturned: bool, after: int)
      returns (acquired: bool, waitFor: int)
      modifies this
      ensures acquired <==> old(row).None? || old(row).value.lastFetchAt <= (now - floor) / 1_000_000_000
      ensures acquired ==> row == Some(Bucket(now / 1_000_000_000, (now + 604_800_000_000_000) / 1_000_000_000))
      ensures !acquired ==> waitFor == if itemReturned then Remaining(old(row).value.lastFetchAt, after, floor) else floor
      ensures acquired <==> Opens(old(row), now, floor)
      ensures row == if acquired then Some(Claimed(now)) else old(row)
      ensures waitFor == if acquired then 0 else Pause(Attempt(old(row), now, itemReturned, after), floor)
    {
      var gate := Unix(now - floor);
      if row.None? || row.value.lastFetchAt <= gate {
        row := Some(Bucket(Unix(now), Unix(now + THROTTLE_TTL)));
        return true, 0;
      }
      if !itemReturned {
        return false, floor;
      }
      var elapsed := after - row.value.lastFetchAt * SECOND;
      var remaining := floor - elapsed;
      if remaining < 0 {
        return false, 0;
      }
      return false, remaining + SLOP;
    }

    /**
     * The retry loop. Before each try the rest of the fleet leaves `attempts[i].row` in the
     * table; the loop ends at the first claim, or when the caller's context runs out.
     * `slept` lists the sleeps it took.
     */
    method Wait(floor: int, attempts: seq<Attempt>) returns (acquired: bool, tries: nat, slept: seq<int>)
      modifies this
      ensures tries <= |attempts| && (if acquired then tries > 0 else tries == |attempts|)
      ensures floor > 0 ==> WaitedBy(floor, attempts, acquired, tries, slept)
      ensures floor <= 0 ==> WaitedBy(defaultFloor, attempts, acquired, tries, slept)
      ensures acquired ==>
                row == Some(Bucket(attempts[tries - 1].now / 1_000_000_000,
                                   (attempts[tries - 1].now + 604_800_000_000_000) / 1_000_000_000))
      // The claim is a step of the fleet with the caller's floor, and so is each refusal.
      ensures floor > 0 && acquired ==>
                var last := attempts[tries - 1];
                Next(Fleet(last.row, []), Try(last.now, floor)) == Fleet(row, [Claim(last.now, floor)])
      ensures floor > 0 ==>
                forall i :: 0 <= i < |slept| ==>
                  Next(Fleet(attempts[i].row, []), Try(attempts[i].now, floor)) == Fleet(attempts[i].row, [])
    {
      var f := if floor <= 0 then defaultFloor else floor;
      acquired, tries, slept := false, 0, [];
      while tries < |attempts|
        invariant tries <= |attempts| && |slept| == tries
        invariant forall i :: 0 <= i < tries ==> !Opens(attempts[i].row, attempts[i].now, f)
        invariant forall i :: 0 <= i < tries ==> slept[i] == Pause(attempts[i], f)
      {
        var a := attempts[tries];
        row := a.row;
        var ok, pause := TryAcquire(a.now, f, a.itemReturned, a.after);
        tries := tries + 1;
        if ok {
          return true, tries, slept;
        }
        slept := slept + [pause];
      }
    }
  }

  /** What is left of the floor since the row's last fetch, with the slop; nothing once it is over. */
  function Remaining(lastFetchAt: int, after: int, floor: int): int {
    var left := floor - (after - lastFetchAt * 1_000_000_000);
    if left < 0 then 0 else left + 50_000_000
  }

  /**
   * The loop's course for this spacing in nanoseconds: every try but a claiming last one met a
   * row younger than it and was followed by a sleep of what the refusal told, the whole spacing
   * when it told nothing; the last one met no row or an old enough one.
   */
  predicate WaitedBy(spacing: int, attempts: seq<Attempt>, acquired: bool, tries: nat, slept: seq<int>)
    requires tries <= |attempts| && (acquired ==> tries > 0)
  {
    && |slept| == (if acquired then tries - 1 else tries)
    && (forall i :: 0 <= i < |slept| ==>
          && attempts[i].row.Some? && attempts[i].row.value.lastFetchAt > (attempts[i].now - spacing) / 1_000_000_000
          && slept[i] == if attempts[i].itemReturned then Remaining(attempts[i].row.value.lastFetchAt, attempts[i].after, spacing)
                         else spacing)
    && (acquired ==>
          var last := attempts[tries - 1];
          last.row.None? || last.row.value.lastFetchAt <= (last.now - spacing) / 1_000_000_000)
  }

  // ----- runs of the whole fleet over one host's bucket ---------------------------

  /** A try by some worker at its own clock reading, or DynamoDB's TTL removing the row. */
  datatype Step = Try(now: int, floor: int) | Sweep(at: int)

  datatype Fleet = Fleet(row: Option<Bucket>, claims: seq<Claim>)
  datatype Claim = Claim(now: int, floor: int)

  const INITIAL := Fleet(None, [])

  function Next(s: Fleet, step: Step): Fleet {
    match step
    case Try(now, floor) =>
      if Opens(s.row, now, floor) then Fleet(Some(Claimed(now)), s.claims + [Claim(now, floor)]) else s
    case Sweep(at) =>
      if s.row.Some? && s.row.value.expiresAt <= Unix(at) then s.(row := None) else s
  }

  function Run(steps: seq<Step>): Fleet {
    if steps == [] then INITIAL else Next(Run(steps[..|steps| - 1]), steps[|steps| - 1])
  }

  /** Wait never asks for a non-positive spacing. */
  predicate PositiveFloors(steps: seq<Step>) {
    forall i :: 0 <= i < |steps| && steps[i].Try? ==> steps[i].floor > 0
  }

  predicate NoSweep(steps: seq<Step>) {
    forall i :: 0 <= i < |steps| ==> steps[i].Try?
  }

  function At(step: Step): int {
    match step case Try(now, _) => now case Sweep(at) => at
  }

  predicate SharedClock(steps: seq<Step>) {
    forall i, j :: 0 <= i < j < |steps| ==> At(steps[i]) <= At(steps[j])
  }

  /** Times stored by claims i < j are at least j's floor apart, in whole seconds. */
  ghost predicate StoredApart(claims: seq<Claim>) {
    forall i, j :: 0 <= i < j < |claims| ==>
      Unix(claims[j].now) - Unix(claims[i].now) >= claims[j].floor / SECOND
  }

  ghost predicate RowIsLastClaim(s: Fleet) {
    if s.claims == [] then s.row == None
    else s.row == Some(Claimed(s.claims[|s.claims| - 1].now))
  }

  ghost predicate StoredOrdered(claims: seq<Claim>) {
    forall i, j :: 0 <= i < j < |claims| ==> Unix(claims[i].now) <= Unix(claims[j].now)
  }

  /** Whatever the clocks read, claims on a living row are spaced by the later caller's floor. */
  lemma {:induction false} ClaimsSpacedWhileRowLives(steps: seq<Step>)
    requires PositiveFloors(steps) && NoSweep(steps)
    ensures StoredApart(Run(steps).claims)
    ensures StoredOrdered(Run(steps).claims) && RowIsLastClaim(Run(steps))
  {
    if steps != [] {
      var n := |steps| - 1;
      ClaimsSpacedWhileRowLives(steps[..n]);
    }
  }

  /** Real time between claims i < j, for a clock all workers share. */
  ghost predicate SpacedInRealTime(claims: seq<Claim>) {
    forall i, j :: 0 <= i < j < |claims| ==> claims[j].now - claims[i].now > Kept(claims[j].floor) - SECOND
  }

  /** Every claim so far is behind the row, or so old that the row may be gone. */
  ghost predicate ClaimsCovered(s: Fleet, now: int) {
    forall i :: 0 <= i < |s.claims| ==>
      && s.claims[i].now <= now
      && if s.row.None? then now - s.claims[i].now > THROTTLE_TTL - SECOND
         else Unix(s.claims[i].now) <= s.row.value.lastFetchAt || now - s.claims[i].now > THROTTLE_TTL - SECOND
  }

  ghost predicate RowFromClaim(s: Fleet, now: int) {
    s.row.Some? ==> exists t :: t <= now && s.row == Some(Claimed(t))
  }

  /** What of a floor the row can keep: a row may be swept after its lifetime. */
  function Kept(floor: int): int {
    if floor <= THROTTLE_TTL then floor else THROTTLE_TTL
  }

  lemma {:induction false} TryKeeps(s: Fleet, now: int, floor: int)
    requires floor > 0 && SpacedInRealTime(s.claims) && ClaimsCovered(s, now) && RowFromClaim(s, now)
    ensures var r := Next(s, Try(now, floor));
            SpacedInRealTime(r.claims) && ClaimsCovered(r, now) && RowFromClaim(r, now)
  {
    if Opens(s.row, now, floor) {
      forall i | 0 <= i < |s.claims| ensures now - s.claims[i].now > Kept(floor) - SECOND {
        if s.row.Some? && Unix(s.claims[i].now) <= s.row.value.lastFetchAt {
          assert Unix(s.claims[i].now) <= Unix(now - floor);
        }
      }
      assert Next(s, Try(now, floor)).row == Some(Claimed(now));
    }
  }

  lemma {:induction false} SweepKeeps(s: Fleet, at: int)
    requires SpacedInRealTime(s.claims) && ClaimsCovered(s, at) && RowFromClaim(s, at)
    ensures var r := Next(s, Sweep(at));
            SpacedInRealTime(r.claims) && ClaimsCovered(r, at) && RowFromClaim(r, at)
  {
    if Next(s, Sweep(at)) != s {
      var t :| t <= at && s.row == Some(Claimed(t));
      assert at - t > THROTTLE_TTL - SECOND;
    }
  }

  lemma {:induction false} LaterStillCovered(s: Fleet, now: int, later: int)
    requires ClaimsCovered(s, now) && RowFromClaim(s, now) && now <= later
    ensures ClaimsCovered(s, later) && RowFromClaim(s, later)
  {
  }

  /**
   * On a shared clock, TTL sweeps included, real spacing always exceeds the floor, or the row's
   * lifetime where that is shorter, less one second.
   */
  lemma {:induction false} RealSpacing(steps: seq<Step>)
    requires PositiveFloors(steps) && SharedClock(steps)
    ensures SpacedInRealTime(Run(steps).claims)
    ensures steps != [] ==> ClaimsCovered(Run(steps), At(steps[|steps| - 1]))
    ensures steps != [] ==> RowFromClaim(Run(steps), At(steps[|steps| - 1]))
  {
    if steps != [] {
      var n := |steps| - 1;
      RealSpacing(steps[..n]);
      if n > 0 {
        assert steps[..n][n - 1] == steps[n - 1];
        LaterStillCovered(Run(steps[..n]), At(steps[n - 1]), At(steps[n]));
      }
      match steps[n]
      case Try(now, floor) => TryKeeps(Run(steps[..n]), now, floor);
      case Sweep(at) => SweepKeeps(Run(steps[..n]), at);
    }
  }

  /**
   * How far "no more than one fetch per floor" holds: with a whole-second floor, a claim
   * undercuts it in real time exactly when the stored seconds are the floor apart and the
   * later clock sits at an earlier fraction of its second.
   */
  lemma UndercutExactly(earlier: int, later: int, floor: int)
    requires floor % SECOND == 0
    requires Opens(Some(Claimed(earlier)), later, floor)
    ensures later - earlier < floor <==>
            Unix(later) - Unix(earlier) == floor / SECOND && later % SECOND < earlier % SECOND
  {
    assert Unix(later - floor) == Unix(later) - floor / SECOND;
  }

  /** For any floor: when the instant a floor ago falls in the earlier claim's second, but before it. */
  lemma UndercutExactlyAnyFloor(earlier: int, later: int, floor: int)
    requires Opens(Some(Claimed(earlier)), later, floor)
    ensures later - earlier < floor <==>
            Unix(later - floor) == Unix(earlier) && (later - floor) % SECOND < earlier % SECOND
  {
  }

  /** The default five seconds, undercut: claims 4.1 s apart both pass. */
  lemma FloorCanBeUndercut()
    ensures var steps := [Try(900_000_000, 5 * SECOND), Try(5 * SECOND, 5 * SECOND)];
            Run(steps).claims == [Claim(900_000_000, 5 * SECOND), Claim(5 * SECOND, 5 * SECOND)]
  {
    var steps := [Try(900_000_000, 5 * SECOND), Try(5 * SECOND, 5 * SECOND)];
    assert steps[..1] == [steps[0]];
    assert [steps[0]][..0] == [];
    assert Run([steps[0]]) == Next(INITIAL, steps[0]);
    assert Run(steps) == Next(Run([steps[0]]), steps[1]);
  }

  // ----- progress -----------------------------------------------------------------

  /** The refusal carried the row: sleeping the estimate opens the next try, whatever the skew. */
  lemma CarriedRowOpensNextTry(a: Attempt, floor: int, next: int)
    requires floor > 0 && a.itemReturned && !Opens(a.row, a.now, floor)
    requires next >= a.after + Pause(a, floor)
    ensures Opens(a.row, next, floor)
  {
    assert next - floor >= a.row.value.lastFetchAt * SECOND;
  }

  /**
   * The refusal carried no row, so the caller sleeps the whole floor: waking exactly then,
   * the next try opens if and only if the stored time is not ahead of the caller's clock.
   */
  lemma BlindSleepOpensNextTry(a: Attempt, floor: int)
    requires floor > 0 && !a.itemReturned && !Opens(a.row, a.now, floor)
    ensures Opens(a.row, a.after + Pause(a, floor), floor) <==> a.row.value.lastFetchAt <= Unix(a.after)
  {
  }

  /** Without contention on a shared clock, Wait claims within two tries and one sleep. */
  lemma OneSleepSuffices(claimedAt: int, first: Attempt, second: Attempt, floor: int)
    requires floor > 0 && claimedAt <= first.now <= first.after
    requires first.row == second.row == Some(Claimed(claimedAt))
    requires second.now >= first.after + Pause(first, floor)
    ensures Opens(first.row, first.now, floor) || Opens(second.row, second.now, floor)
  {
    if !Opens(first.row, first.now, floor) && first.itemReturned {
      CarriedRowOpensNextTry(first, floor, second.now);
    }
  }
}
