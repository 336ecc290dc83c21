/**
 * Operators applying and dismissing one tuner delta, concurrently. A handler reads the delta,
 * may rewrite the live style guide (or tone profile, which has the same shape), then flips the
 * delta's status on condition that it is still pending. Reads may return any earlier version.
 */
module TunerDecision {
  import opened Common
  import opened MergeList

  /** The three phrase lists of a guide, and its palette's primary colour. */
  datatype Content = Content(first: seq<string>, second: seq<string>, third: seq<string>, primary: string)

  datatype Edit = Edit(add: seq<string>, remove: seq<string>)

  /** A style delta adds to its third list only and may name a colour; a targeting delta is advisory. */
  datatype Kind = Style | EmailTone | Targeting | Unknown

  datatype Delta = Delta(kind: Kind, first: Edit, second: Edit, third: Edit, primary: string)

  /** The kinds with a profile to rewrite. */
  predicate Rewrites(d: Delta) {
    d.kind == Style || d.kind == EmailTone
  }

  function ApplyDelta(c: Content, d: Delta): Content {
    Content(
      Merged(c.first, d.first.add, d.first.remove),
      Merged(c.second, d.second.add, d.second.remove),
      Merged(c.third, d.third.add, d.third.remove),
      if d.kind == Style && d.primary != "" then d.primary else c.primary)
  }

  /** Each list is the merge of its own edit, and a style delta that names a colour sets it. */
  ghost predicate ContentApplied(before: Content, after: Content, d: Delta) {
    && IsMerge(before.first, d.first.add, d.first.remove, after.first)
    && IsMerge(before.second, d.second.add, d.second.remove, after.second)
    && IsMerge(before.third, d.third.add, d.third.remove, after.third)
    && after.primary == if d.kind == Style && d.primary != "" then d.primary else before.primary
  }

  lemma {:induction false} ApplyDeltaApplies(c: Content, d: Delta)
    ensures ContentApplied(c, ApplyDelta(c, d), d)
  {
    MergedIsMerge(c.first, d.first.add, d.first.remove);
    MergedIsMerge(c.second, d.second.add, d.second.remove);
    MergedIsMerge(c.third, d.third.add, d.third.remove);
  }

  lemma {:induction false} ApplyTwice(c: Content, d: Delta)
    ensures ApplyDelta(ApplyDelta(c, d), d) == ApplyDelta(c, d)
  {
    MergeIdempotent(c.first, d.first.add, d.first.remove);
    MergeIdempotent(c.second, d.second.add, d.second.remove);
    MergeIdempotent(c.third, d.third.add, d.third.remove);
  }

  /** What no delta touches: a style guide's tone or a tone profile's opt-out line, and the neutral shades. */
  datatype Fixed = Fixed(vertical: string, line: string, neutral: nat)

  datatype Guide = Guide(content: Content, fixed: Fixed, version: nat, etag: nat)

  /** The validation of either package. */
  predicate Valid(kind: Kind, g: Guide) {
    && !Blank(g.fixed.vertical) && !Blank(g.fixed.line) && g.version >= 1
    && (kind == Style ==> !Blank(g.content.primary) && g.fixed.neutral >= 1)
    && (kind == EmailTone ==> g.content.first != [] && g.content.second != [])
  }

  /** The guide with the delta applied, under the next version and a new etag. */
  ghost predicate GuideApplied(before: Guide, after: Guide, d: Delta, newEtag: nat) {
    && ContentApplied(before.content, after.content, d) && after.fixed == before.fixed
    && after.version == before.version + 1 && after.etag == newEtag
  }

  // ----- the profile table -----------------------------------------------------------

  datatype UpdateResult = Updated(guide: Guide) | NotFound | EtagMismatch | Invalid

  function Bumped(current: Guide, g: Guide): nat {
    if g.version <= current.version then current.version + 1 else g.version
  }

  /** Update up to its put, against the row it read; no expected etag is the empty string. */
  function Prepared(kind: Kind, current: Option<Guide>, g: Guide, expected: Option<nat>, newEtag: nat): UpdateResult {
    if expected.None? then Invalid
    else if current.None? then NotFound
    else if current.value.etag != expected.value then EtagMismatch
    else
      var next := g.(version := Bumped(current.value, g), etag := newEtag);
      if Valid(kind, next) then Updated(next) else Invalid
  }

  class GuideTable {
    var row: Option<Guide>

    constructor (row: Option<Guide>)
      ensures this.row == row
    {
      this.row := row;
    }

    /** `current` is what the inner Get returned; the put that follows has no condition. */
    method Update(kind: Kind, current: Option<Guide>, g: Guide, expected: Option<nat>, newEtag: nat) returns (r: UpdateResult)
      modifies this
      ensures r.NotFound? <==> expected.Some? && current.None?
      ensures r.EtagMismatch? <==> expected.Some? && current.Some? && current.value.etag != expected.value
      ensures r.Updated? ==>
                && expected.Some? && current.Some? && current.value.etag == expected.value
                && r.guide.content == g.content && r.guide.fixed == g.fixed && r.guide.etag == newEtag
                && r.guide.version == (if g.version <= current.value.version then current.value.version + 1 else g.version)
      // Past the etag check the guide is stored exactly when it validates.
      ensures expected.Some? && current.Some? && current.value.etag == expected.value ==>
                (r.Updated? <==>
                   && !Blank(g.fixed.vertical) && !Blank(g.fixed.line)
                   && (kind == Style ==> !Blank(g.content.primary) && g.fixed.neutral >= 1)
                   && (kind == EmailTone ==> g.content.first != [] && g.content.second != []))
      ensures expected.None? ==> r.Invalid?
      ensures r == Prepared(kind, current, g, expected, newEtag)
      ensures row == if r.Updated? then Some(r.guide) else old(row)
    {
      if expected.None? {
        return Invalid;
      }
      if current.None? {
        return NotFound;
      }
      if current.value.etag != expected.value {
        return EtagMismatch;
      }
      var version := g.version;
      if version <= current.value.version {
        version := current.value.version + 1;
      }
      var next := Guide(g.content, g.fixed, version, newEtag);
      if !Valid(kind, next) {
        return Invalid;
      }
      row := Some(next);
      return Updated(next);
    }

    /** applyDelta with nobody else writing: read, merge, update; None is an error. */
    method Apply(d: Delta, newEtag: nat) returns (version: Option<nat>)
      modifies this
      ensures d.kind == Targeting ==> version == Some(0) && row == old(row)
      ensures d.kind == Unknown || (Rewrites(d) && old(row).None?) ==> version == None && row == old(row)
      ensures version.Some? && d.kind != Targeting ==>
                && (d.kind == Style || d.kind == EmailTone) && old(row).Some? && row.Some?
                && GuideApplied(old(row).value, row.value, d, newEtag) && version == Some(row.value.version)
      ensures version.None? ==> row == old(row)
      ensures Rewrites(d) && old(row).Some? ==>
                var merged := Guide(ApplyDelta(old(row).value.content, d), old(row).value.fixed, old(row).value.version + 1, newEtag);
                && row == (if Valid(d.kind, merged) then Some(merged) else old(row))
                && version == (if Valid(d.kind, merged) then Some(merged.version) else None)
    {
      if d.kind == Targeting {
        return Some(0);
      }
      if d.kind == Unknown || row.None? {
        return None;
      }
      ApplyDeltaApplies(row.value.content, d);
      var g := row.value;
      var first := MergeLists(g.content.first, d.first.add, d.first.remove);
      var second := MergeLists(g.content.second, d.second.add, d.second.remove);
      var third := MergeLists(g.content.third, d.third.add, d.third.remove);
      var primary := g.content.primary;
      if d.kind == Style && d.primary != "" {
        primary := d.primary;
      }
      var r := Update(d.kind, row, g.(content := Content(first, second, third, primary)), Some(g.etag), newEtag);
      return if r.Updated? then Some(r.guide.version) else None;
    }
  }

  // ----- handlers, interleaved ---------------------------------------------------------

  datatype Status = Pending | Applied | Dismissed

  datatype Pc = ReadingDelta | ReadingGuide | Checking | Putting | Flipping | Auditing | Done

  /** `guide` is what it read, then what it will put; `checked` the version its etag check read. */
  datatype Handler = Handler(apply: bool, pc: Pc, guide: Guide, checked: nat)

  /** A guide written, the number of the version its handler had checked, and the handler. */
  datatype Put = Put(guide: Guide, checked: nat, writer: nat)

  datatype Sys = Sys(
    status: Status,
    origin: Guide,            // version number 0
    puts: seq<Put>,           // put i wrote version number i + 1
    handlers: map<nat, Handler>,
    nextEtag: nat,
    winner: Option<nat>,      // the handler whose flip went through
    audits: seq<nat>)         // who wrote a Feedback row

  /** How a remote call ends. `Lost` is a call that took effect though the handler saw an error. */
  datatype Answer = Fails | Lost | Fine

  /** What a read sees: the row as it is, or as it was. */
  datatype Read = Fresh | Stale(version: nat)

  datatype Step = Begin(h: nat, apply: bool) | Act(h: nat, answer: Answer, read: Read)

  function Initial(guide: Guide): Sys {
    Sys(Pending, guide, [], map[], guide.etag + 1, None, [])
  }

  function Version(s: Sys, k: nat): Guide
    requires k <= |s.puts|
  {
    if k == 0 then s.origin else s.puts[k - 1].guide
  }

  function Current(s: Sys): Guide {
    Version(s, |s.puts|)
  }

  function Seen(s: Sys, read: Read): (k: nat)
    ensures k <= |s.puts|
  {
    if read.Stale? && read.version <= |s.puts| then read.version else |s.puts|
  }

  /** The delta was pending until it was decided. */
  function SeenStatus(s: Sys, read: Read): Status {
    if read.Fresh? then s.status else Pending
  }

  function Moved(s: Sys, h: nat, to: Handler): Sys {
    s.(handlers := s.handlers[h := to])
  }

  predicate Writing(pc: Pc) {
    pc.Putting? || pc.Flipping? || pc.Auditing?
  }

  /** Update reads the row again; the content and version it will store are settled here. */
  function Rechecked(d: Delta, current: Guide, seen: Guide, newEtag: nat): UpdateResult {
    Prepared(d.kind, Some(current), seen.(content := ApplyDelta(seen.content, d)), Some(seen.etag), newEtag)
  }

  function Next(d: Delta, s: Sys, step: Step): Sys {
    match step
    case Begin(h, apply) => if h in s.handlers then s else Moved(s, h, Handler(apply, ReadingDelta, s.origin, 0))
    case Act(h, answer, read) =>
      if h !in s.handlers then s
      else
        var me := s.handlers[h];
        var stopped := me.(pc := Done);
        if answer.Fails? || (answer.Lost? && !Writing(me.pc)) then Moved(s, h, stopped)
        else
          match me.pc
          case ReadingDelta =>
            if SeenStatus(s, read) != Pending || (me.apply && d.kind == Unknown) then Moved(s, h, stopped)
            else Moved(s, h, me.(pc := if me.apply && Rewrites(d) then ReadingGuide else Flipping))
          case ReadingGuide => Moved(s, h, me.(pc := Checking, guide := Version(s, Seen(s, read))))
          case Checking =>
            var r := Rechecked(d, Version(s, Seen(s, read)), me.guide, s.nextEtag);
            if !r.Updated? then Moved(s, h, stopped)
            else
              Moved(s, h, me.(pc := Putting, guide := r.guide, checked := Seen(s, read))).(nextEtag := s.nextEtag + 1)
          case Putting =>
            Moved(s, h, if answer.Lost? then stopped else me.(pc := Flipping))
              .(puts := s.puts + [Put(me.guide, me.checked, h)])
          case Flipping =>
            if s.status != Pending then Moved(s, h, stopped)
            else
              Moved(s, h, if answer.Lost? then stopped else me.(pc := Auditing))
                .(status := if me.apply then Applied else Dismissed, winner := Some(h))
          case Auditing => Moved(s, h, stopped).(audits := s.audits + [h])
          case Done => s
  }

  function Run(d: Delta, s: Sys, steps: seq<Step>): Sys {
    if steps == [] then s else Next(d, Run(d, s, steps[..|steps| - 1]), steps[|steps| - 1])
  }

  // ----- one request, run alone ----------------------------------------------------------

  /** All calls of one handler with nothing else running. */
  function Alone(d: Delta, s: Sys, h: nat, answers: seq<Answer>): Sys
    decreases |answers|
  {
    if answers == [] then s else Alone(d, Next(d, s, Act(h, answers[0], Fresh)), h, answers[1..])
  }

  lemma {:induction false} AloneOne(d: Delta, s: Sys, h: nat, answers: seq<Answer>, i: nat)
    requires i < |answers|
    ensures Alone(d, s, h, answers[i..]) == Alone(d, Next(d, s, Act(h, answers[i], Fresh)), h, answers[i + 1..])
  {
    assert answers[i..][1..] == answers[i + 1..];
  }

  lemma {:induction false} StoppedStays(d: Delta, s: Sys, h: nat, answers: seq<Answer>)
    requires h in s.handlers && s.handlers[h].pc == Done
    ensures Alone(d, s, h, answers) == s
  {
    if answers != [] {
      assert s.handlers[h := s.handlers[h]] == s.handlers;
      assert Next(d, s, Act(h, answers[0], Fresh)) == s;
      StoppedStays(d, s, h, answers[1..]);
    }
  }

  /** The rows a decision touches. */
  class DecisionRows {
    var status: Status
    var guide: Guide
    var audited: bool

    constructor (guide: Guide)
      ensures status == Pending && this.guide == guide && !audited
    {
      status, this.guide, audited := Pending, guide, false;
    }

    /** These rows are those of `s`. */
    ghost predicate Mirrors(s: Sys)
      reads this
    {
      status == s.status && guide == Current(s) && (audited <==> s.audits != [])
    }

    /** The conditional flip; None is an error, Some(false) that it is no longer pending. */
    method SetDeltaStatus(to: Status, answer: Answer) returns (flipped: Option<bool>)
      modifies this`status
      ensures status == if old(status) == Pending && !answer.Fails? then to else old(status)
      ensures flipped == if !answer.Fine? then None else Some(old(status) == Pending)
    {
      if answer.Fails? {
        return None;
      }
      var pending := status == Pending;
      if pending {
        status := to;
      }
      return if answer.Lost? then None else Some(pending);
    }

    /**
     * handleDecision past its parsing, call by call: read the delta, rewrite the guide for an
     * apply, flip the status, write the audit row, announce an apply. Alone it does what a handler
     * of the interleaved model does.
     */
    method HandleDecision(d: Delta, apply: bool, newEtag: nat, answers: seq<Answer>, publishFails: bool, ghost s0: Sys, ghost h: nat)
      returns (r: Reply, ghost s: Sys)
      requires |answers| == 6 && Mirrors(s0) && s0.nextEtag == newEtag
      requires h in s0.handlers && s0.handlers[h].pc == ReadingDelta && s0.handlers[h].apply == apply
      modifies this
      // A missing or a decided delta changes nothing, and neither does one of an unknown kind.
      ensures r == Missing <==> !answers[0].Fine?
      ensures answers[0].Fine? && old(status) != Pending ==> r == Conflict
      ensures !answers[0].Fine? || old(status) != Pending || (apply && d.kind == Unknown) ==>
                status == old(status) && guide == old(guide) && audited == old(audited) && r != Ok
      // A dismissal and an advisory delta leave the guide alone.
      ensures answers[0].Fine? && old(status) == Pending && (!apply || d.kind == Targeting) ==>
                && guide == old(guide)
                && Decided(apply, answers[1], answers[2], publishFails, old(audited), status, audited, r)
      // A style or tone delta is applied to the guide it read, if the result validates, and decided only then.
      ensures answers[0].Fine? && old(status) == Pending && apply && (d.kind == Style || d.kind == EmailTone) ==>
                var merged := Guide(ApplyDelta(old(guide).content, d), old(guide).fixed, old(guide).version + 1, newEtag);
                var put := answers[1].Fine? && answers[2].Fine? && Valid(d.kind, merged);
                && GuideApplied(old(guide), merged, d, newEtag)
                && guide == (if put && !answers[3].Fails? then merged else old(guide))
                && if put && answers[3].Fine? then Decided(true, answers[4], answers[5], publishFails, old(audited), status, audited, r)
                   else status == Pending && audited == old(audited) && r == Failure
      ensures Mirrors(s) && s == Alone(d, s0, h, answers)
    {
      s := s0;
      assert answers[0..] == answers;
      AloneOne(d, s, h, answers, 0);
      s := Next(d, s, Act(h, answers[0], Fresh));
      if !answers[0].Fine? || status != Pending || (apply && d.kind == Unknown) {
        StoppedStays(d, s, h, answers[1..]);
        r := if !answers[0].Fine? then Missing else if status != Pending then Conflict else Failure;
        return;
      }
      if apply && Rewrites(d) {
        var done;
        done, s := RewriteGuide(d, newEtag, answers, s, h);
        if !done {
          return Failure, s;
        }
        r, s := Decide(d, apply, answers, 4, publishFails, s, h);
      } else {
        r, s := Decide(d, apply, answers, 1, publishFails, s, h);
      }
    }

    /** applyDelta: read, merge, then the update. */
    method RewriteGuide(d: Delta, newEtag: nat, answers: seq<Answer>, ghost s0: Sys, ghost h: nat)
      returns (done: bool, ghost s: Sys)
      requires |answers| == 6 && Mirrors(s0) && s0.nextEtag == newEtag
      requires h in s0.handlers && s0.handlers[h].pc == ReadingGuide && s0.handlers[h].apply
      modifies this`guide
      ensures var merged := Guide(ApplyDelta(old(guide).content, d), old(guide).fixed, old(guide).version + 1, newEtag);
              var put := answers[1].Fine? && answers[2].Fine? && Valid(d.kind, merged);
              && GuideApplied(old(guide), merged, d, newEtag)
              && guide == (if put && !answers[3].Fails? then merged else old(guide))
              && (done <==> put && answers[3].Fine?)
      ensures Mirrors(s)
      ensures Alone(d, s0, h, answers[1..]) == if done then Alone(d, s, h, answers[4..]) else s
      ensures done ==> h in s.handlers && s.handlers[h].pc == Flipping && s.handlers[h].apply
    {
      s := s0;
      ApplyDeltaApplies(guide.content, d);
      AloneOne(d, s, h, answers, 1);
      s := Next(d, s, Act(h, answers[1], Fresh));
      if !answers[1].Fine? {
        StoppedStays(d, s, h, answers[2..]);
        return false, s;
      }
      done, s := UpdateGuide(d, newEtag, answers, s, h);
    }

    /** The inner read with its checks, and the put. */
    method UpdateGuide(d: Delta, newEtag: nat, answers: seq<Answer>, ghost s0: Sys, ghost h: nat)
      returns (done: bool, ghost s: Sys)
      requires |answers| == 6 && Mirrors(s0) && s0.nextEtag == newEtag
      requires h in s0.handlers && s0.handlers[h].pc == Checking && s0.handlers[h].apply && s0.handlers[h].guide == guide
      modifies this`guide
      ensures var merged := Guide(ApplyDelta(old(guide).content, d), old(guide).fixed, old(guide).version + 1, newEtag);
              var put := answers[2].Fine? && Valid(d.kind, merged);
              guide == (if put && !answers[3].Fails? then merged else old(guide)) && (done <==> put && answers[3].Fine?)
      ensures Mirrors(s)
      ensures Alone(d, s0, h, answers[2..]) == if done then Alone(d, s, h, answers[4..]) else s
      ensures done ==> h in s.handlers && s.handlers[h].pc == Flipping && s.handlers[h].apply
    {
      s := s0;
      AloneOne(d, s, h, answers, 2);
      s := Next(d, s, Act(h, answers[2], Fresh));
      var r := Rechecked(d, guide, guide, newEtag);
      if !answers[2].Fine? || !r.Updated? {
        StoppedStays(d, s, h, answers[3..]);
        return false, s;
      }
      done, s := PutGuide(d, r.guide, answers, s, h);
    }

    /** The put, without a condition. */
    method PutGuide(d: Delta, updated: Guide, answers: seq<Answer>, ghost s0: Sys, ghost h: nat)
      returns (done: bool, ghost s: Sys)
      requires |answers| == 6 && Mirrors(s0)
      requires h in s0.handlers && s0.handlers[h].pc == Putting && s0.handlers[h].apply && s0.handlers[h].guide == updated
      modifies this`guide
      ensures guide == (if answers[3].Fails? then old(guide) else updated) && (done <==> answers[3].Fine?)
      ensures Mirrors(s)
      ensures Alone(d, s0, h, answers[3..]) == if done then Alone(d, s, h, answers[4..]) else s
      ensures done ==> h in s.handlers && s.handlers[h].pc == Flipping && s.handlers[h].apply
    {
      s := s0;
      AloneOne(d, s, h, answers, 3);
      s := Next(d, s, Act(h, answers[3], Fresh));
      if !answers[3].Fails? {
        guide := updated;
      }
      if !answers[3].Fine? {
        StoppedStays(d, s, h, answers[4..]);
        return false, s;
      }
      return true, s;
    }

    /** The flip and the audit row, calls i and i + 1, then the event of an apply. */
    method Decide(d: Delta, apply: bool, answers: seq<Answer>, i: nat, publishFails: bool, ghost s0: Sys, ghost h: nat)
      returns (r: Reply, ghost s: Sys)
      requires i + 2 <= |answers| && Mirrors(s0)
      requires h in s0.handlers && s0.handlers[h].pc == Flipping && s0.handlers[h].apply == apply
      modifies this`status, this`audited
      ensures old(status) == Pending ==>
                Decided(apply, answers[i], answers[i + 1], publishFails, old(audited), status, audited, r)
      ensures old(status) != Pending ==>
                status == old(status) && audited == old(audited) && r == if answers[i].Fine? then Conflict else Failure
      ensures Mirrors(s) && s == Alone(d, s0, h, answers[i..])
    {
      s := s0;
      AloneOne(d, s, h, answers, i);
      s := Next(d, s, Act(h, answers[i], Fresh));
      var flipped := SetDeltaStatus(if apply then Applied else Dismissed, answers[i]);
      if flipped != Some(true) {
        StoppedStays(d, s, h, answers[i + 1..]);
        r := if flipped.None? then Failure else Conflict;
        return;
      }
      AloneOne(d, s, h, answers, i + 1);
      s := Next(d, s, Act(h, answers[i + 1], Fresh));
      if !answers[i + 1].Fails? {
        audited := true;
      }
      StoppedStays(d, s, h, answers[i + 2..]);
      r := if answers[i + 1].Fine? && !(apply && publishFails) then Ok else Failure;
    }
  }

  /** HTTP answers: 200, 404, 409 and 500. */
  datatype Reply = Ok | Missing | Conflict | Failure

  /** A pending delta is flipped to what was asked; the audit row follows a flip known to have gone through. */
  predicate Decided(
      apply: bool, flip: Answer, audit: Answer, publishFails: bool, auditedBefore: bool,
      status: Status, audited: bool, r: Reply)
  {
    && status == (if flip.Fails? then Pending else if apply then Applied else Dismissed)
    && (audited <==> auditedBefore || (flip.Fine? && !audit.Fails?))
    && r == if flip.Fine? && audit.Fine? && !(apply && publishFails) then Ok else Failure
  }

  // ----- the content, over any number of requests ------------------------------------------

  /** What a handler knows about the guide, where `merged` is the once-merged `first`. */
  ghost predicate HandlerOk(rewrites: bool, first: Content, merged: Content, put: bool, h: Handler) {
    match h.pc
    case Checking => h.apply && (h.guide.content == first || h.guide.content == merged)
    case Putting => h.apply && h.guide.content == merged
    case ReadingGuide => h.apply
    case Flipping => h.apply && rewrites ==> put
    case Auditing => h.apply && rewrites ==> put
    case _ => true
  }

  /** Every put wrote the merged content and was an apply's. */
  ghost predicate PutsOk(merged: Content, s: Sys) {
    forall i :: 0 <= i < |s.puts| ==>
      s.puts[i].guide.content == merged && s.puts[i].writer in s.handlers && s.handlers[s.puts[i].writer].apply
  }

  ghost predicate ContentOk(rewrites: bool, first: Content, merged: Content, s: Sys) {
    && s.origin.content == first
    && PutsOk(merged, s)
    && (s.status == Applied && rewrites ==> s.puts != [])
    && forall h :: h in s.handlers ==> HandlerOk(rewrites, first, merged, s.puts != [], s.handlers[h])
  }

  /** What one move of a handler may do to the content. */
  ghost predicate ContentKept(rewrites: bool, first: Content, merged: Content, s: Sys, t: Sys, h: nat) {
    && h in t.handlers && t.handlers == s.handlers[h := t.handlers[h]]
    && (h in s.handlers ==> t.handlers[h].apply == s.handlers[h].apply)
    && HandlerOk(rewrites, first, merged, t.puts != [], t.handlers[h])
    && t.origin == s.origin
    && (t.status == Applied && rewrites ==> t.puts != [])
    && (t.puts == s.puts || (|t.puts| == |s.puts| + 1 && t.puts[..|s.puts|] == s.puts && t.handlers[h].apply
                             && t.puts[|s.puts|].guide.content == merged && t.puts[|s.puts|].writer == h))
  }

  lemma {:induction false} ContentMoved(rewrites: bool, first: Content, merged: Content, s: Sys, t: Sys, h: nat)
    requires ContentOk(rewrites, first, merged, s) && ContentKept(rewrites, first, merged, s, t, h)
    ensures ContentOk(rewrites, first, merged, t)
  {
    forall k | k in t.handlers ensures HandlerOk(rewrites, first, merged, t.puts != [], t.handlers[k]) {
      assert k != h ==> HandlerOk(rewrites, first, merged, s.puts != [], s.handlers[k]);
    }
    forall i | 0 <= i < |t.puts|
      ensures t.puts[i].guide.content == merged && t.puts[i].writer in t.handlers && t.handlers[t.puts[i].writer].apply
    {
      assert i < |s.puts| ==> t.puts[i] == s.puts[i];
    }
  }

  /** Whatever version is read, its content is the first or the merged one. */
  lemma {:induction false} VersionContent(rewrites: bool, first: Content, merged: Content, s: Sys, k: nat)
    requires ContentOk(rewrites, first, merged, s) && k <= |s.puts|
    ensures Version(s, k).content == if k == 0 then first else merged
  {
  }

  lemma {:induction false} RecheckedContent(d: Delta, current: Guide, seen: Guide, newEtag: nat)
    ensures var r := Rechecked(d, current, seen, newEtag);
            r.Updated? ==> r.guide.content == ApplyDelta(seen.content, d)
  {
  }

  lemma {:induction false} ContentCheck(d: Delta, first: Content, merged: Content, s: Sys, h: nat, answer: Answer, read: Read)
    requires h in s.handlers && s.handlers[h].apply && s.handlers[h].pc == Checking
    requires s.status == Applied && Rewrites(d) ==> s.puts != []
    requires ApplyDelta(s.handlers[h].guide.content, d) == merged
    ensures ContentKept(Rewrites(d), first, merged, s, Next(d, s, Act(h, answer, read)), h)
  {
    RecheckedContent(d, Version(s, Seen(s, read)), s.handlers[h].guide, s.nextEtag);
  }

  lemma {:induction false} ContentAct(d: Delta, first: Content, merged: Content, s: Sys, h: nat, answer: Answer, read: Read)
    requires h in s.handlers && HandlerOk(Rewrites(d), first, merged, s.puts != [], s.handlers[h])
    requires Version(s, Seen(s, read)).content == first || Version(s, Seen(s, read)).content == merged
    requires s.status == Applied && Rewrites(d) ==> s.puts != []
    requires s.handlers[h].pc == Checking ==> ApplyDelta(s.handlers[h].guide.content, d) == merged
    ensures ContentKept(Rewrites(d), first, merged, s, Next(d, s, Act(h, answer, read)), h)
  {
    if s.handlers[h].pc == Checking {
      ContentCheck(d, first, merged, s, h, answer, read);
    }
  }

  /** A handler about to put will put the merged content, whichever content it saw. */
  lemma {:induction false} CheckedMerges(d: Delta, first: Content, merged: Content, s: Sys, h: nat)
    requires ContentOk(Rewrites(d), first, merged, s) && h in s.handlers
    requires ApplyDelta(first, d) == merged && ApplyDelta(merged, d) == merged
    ensures s.handlers[h].pc == Checking ==> ApplyDelta(s.handlers[h].guide.content, d) == merged
  {
    assert HandlerOk(Rewrites(d), first, merged, s.puts != [], s.handlers[h]);
  }

  lemma {:induction false} ContentStep(d: Delta, first: Content, merged: Content, s: Sys, step: Step)
    requires ContentOk(Rewrites(d), first, merged, s)
    requires ApplyDelta(first, d) == merged && ApplyDelta(merged, d) == merged
    ensures ContentOk(Rewrites(d), first, merged, Next(d, s, step))
  {
    var t := Next(d, s, step);
    match step
    case Begin(h, apply) =>
      if h !in s.handlers {
        ContentMoved(Rewrites(d), first, merged, s, t, h);
      }
    case Act(h, answer, read) =>
      if h in s.handlers {
        CheckedMerges(d, first, merged, s, h);
        VersionContent(Rewrites(d), first, merged, s, Seen(s, read));
        assert HandlerOk(Rewrites(d), first, merged, s.puts != [], s.handlers[h]);
        ContentAct(d, first, merged, s, h, answer, read);
        ContentMoved(Rewrites(d), first, merged, s, t, h);
      }
  }

  lemma {:induction false} ContentRun(d: Delta, guide: Guide, steps: seq<Step>)
    ensures ContentOk(Rewrites(d), guide.content, ApplyDelta(guide.content, d), Run(d, Initial(guide), steps))
  {
    if steps != [] {
      ContentRun(d, guide, steps[..|steps| - 1]);
      ApplyTwice(guide.content, d);
      ContentStep(d, guide.content, ApplyDelta(guide.content, d), Run(d, Initial(guide), steps[..|steps| - 1]),
                  steps[|steps| - 1]);
    }
  }

  /**
   * However many applies and dismisses race, failing, losing answers or reading stale rows anywhere,
   * the lists are the original ones until some apply reaches its put and the once-merged ones ever
   * after; every put wrote those, and an applied delta with a profile to rewrite is merged.
   */
  lemma {:induction false} OriginalOrOnceMerged(d: Delta, guide: Guide, steps: seq<Step>)
    ensures var s := Run(d, Initial(guide), steps);
            && Current(s).content == (if s.puts == [] then guide.content else ApplyDelta(guide.content, d))
            && (forall i :: 0 <= i < |s.puts| ==> s.puts[i].guide.content == ApplyDelta(guide.content, d))
            && (forall i :: 0 <= i < |s.puts| ==> ContentApplied(guide.content, s.puts[i].guide.content, d))
            && (s.status == Applied && Rewrites(d) ==> Current(s).content == ApplyDelta(guide.content, d))
  {
    ContentRun(d, guide, steps);
    ApplyDeltaApplies(guide.content, d);
  }

  /** Some apply has reached its put. */
  predicate ApplyHasPut(s: Sys) {
    exists i :: 0 <= i < |s.puts| && s.puts[i].writer in s.handlers && s.handlers[s.puts[i].writer].apply
  }

  /**
   * A delta changes the guide exactly when some apply has reached its put and the merge changes
   * anything, whatever was decided: so a dismissed one does as well.
   */
  lemma {:induction false} ChangedExactlyByAPut(d: Delta, guide: Guide, steps: seq<Step>)
    ensures var s := Run(d, Initial(guide), steps);
            Current(s).content != guide.content <==> ApplyHasPut(s) && ApplyDelta(guide.content, d) != guide.content
  {
    ContentRun(d, guide, steps);
    var s := Run(d, Initial(guide), steps);
    assert s.puts != [] ==> s.puts[0].writer in s.handlers && s.handlers[s.puts[0].writer].apply;
  }

  // ----- the decision -------------------------------------------------------------------------

  ghost predicate DecisionOk(s: Sys) {
    && (s.status == Pending <==> s.winner.None?)
    && (forall h :: h in s.handlers && s.handlers[h].pc.Auditing? ==> s.winner == Some(h))
    && |s.audits| <= 1
    && (s.audits != [] ==> s.winner == Some(s.audits[0]))
    && (s.winner.Some? ==> s.winner.value in s.handlers)
    && (s.winner.Some? ==> WinnerOk(s, s.handlers[s.winner.value]))
  }

  /** The winner has at most its audit row left to write, and the status is its decision. */
  ghost predicate WinnerOk(s: Sys, w: Handler) {
    && (w.pc == Auditing || w.pc == Done)
    && (w.pc == Auditing ==> s.audits == [])
    && s.status == if w.apply then Applied else Dismissed
  }

  /** A handler moves and decides nothing. */
  lemma {:induction false} DecisionUntouched(s: Sys, t: Sys, h: nat, to: Handler)
    requires DecisionOk(s) && t.handlers == s.handlers[h := to]
    requires t.status == s.status && t.winner == s.winner && t.audits == s.audits
    requires to.pc != Auditing && (s.winner == Some(h) ==> WinnerOk(t, to))
    ensures DecisionOk(t)
  {
  }

  /** A pending delta is decided; a handler that did not see it stops. */
  lemma {:induction false} DecisionMade(s: Sys, t: Sys, h: nat, to: Handler)
    requires DecisionOk(s) && t.handlers == s.handlers[h := to]
    requires s.status == Pending && (to.pc == Auditing || to.pc == Done) && t.winner == Some(h) && t.audits == s.audits
    requires t.status == if to.apply then Applied else Dismissed
    ensures DecisionOk(t)
  {
  }

  /** The winner writes its audit row. */
  lemma {:induction false} DecisionAudited(s: Sys, t: Sys, h: nat)
    requires DecisionOk(s) && h in s.handlers && s.handlers[h].pc == Auditing
    requires t.handlers == s.handlers[h := s.handlers[h].(pc := Done)]
    requires t.status == s.status && t.winner == s.winner && t.audits == s.audits + [h]
    ensures DecisionOk(t)
  {
  }

  lemma {:induction false} DecisionStep(d: Delta, s: Sys, step: Step)
    requires DecisionOk(s)
    ensures DecisionOk(Next(d, s, step))
  {
    var t := Next(d, s, step);
    match step
    case Begin(h, apply) =>
      if h !in s.handlers {
        DecisionUntouched(s, t, h, t.handlers[h]);
      }
    case Act(h, answer, read) =>
      if h in s.handlers {
        var me := s.handlers[h];
        if !answer.Fails? && me.pc == Flipping && s.status == Pending {
          DecisionMade(s, t, h, t.handlers[h]);
        } else if !answer.Fails? && me.pc == Auditing {
          DecisionAudited(s, t, h);
        } else if t != s {
          DecisionUntouched(s, t, h, t.handlers[h]);
        }
      }
  }

  lemma {:induction false} DecisionRun(d: Delta, guide: Guide, steps: seq<Step>)
    ensures DecisionOk(Run(d, Initial(guide), steps))
  {
    if steps != [] {
      DecisionRun(d, guide, steps[..|steps| - 1]);
      DecisionStep(d, Run(d, Initial(guide), steps[..|steps| - 1]), steps[|steps| - 1]);
    }
  }

  /** At most one audit row is written, by the handler that made the decision the row stands for. */
  lemma {:induction false} OneDecisionOneAudit(d: Delta, guide: Guide, steps: seq<Step>)
    ensures var s := Run(d, Initial(guide), steps);
            && |s.audits| <= 1
            && (s.audits != [] ==> s.status != Pending && s.audits[0] in s.handlers)
            && (s.audits != [] ==> (s.status == Applied <==> s.handlers[s.audits[0]].apply))
  {
    DecisionRun(d, guide, steps);
  }

  /** A decided delta stays decided the same way. */
  lemma {:induction false} DecisionIsFinal(d: Delta, s: Sys, steps: seq<Step>)
    requires s.status != Pending
    ensures Run(d, s, steps).status == s.status && Run(d, s, steps).winner == s.winner
  {
    if steps != [] {
      DecisionIsFinal(d, s, steps[..|steps| - 1]);
    }
  }

  // ----- versions ---------------------------------------------------------------------------------

  /** Etags are told apart: of stored versions, and of the guides waiting to be put. */
  ghost predicate EtagsOk(s: Sys) {
    && (forall k :: 0 <= k <= |s.puts| ==> Version(s, k).etag < s.nextEtag)
    && (forall j, k :: 0 <= j < k <= |s.puts| ==> Version(s, j).etag != Version(s, k).etag)
    && (forall h :: h in s.handlers && s.handlers[h].pc == Putting ==> NotYetPut(s, h))
    && forall h, g :: h in s.handlers && g in s.handlers && h != g && s.handlers[h].pc == Putting && s.handlers[g].pc == Putting
         ==> s.handlers[h].guide.etag != s.handlers[g].guide.etag
  }

  ghost predicate NotYetPut(s: Sys, h: nat)
    requires h in s.handlers
  {
    && s.handlers[h].guide.etag < s.nextEtag
    && forall k :: 0 <= k <= |s.puts| ==> Version(s, k).etag != s.handlers[h].guide.etag
  }

  /** A handler at its check holds a stored version; one at its put, the successor of the one it checked. */
  ghost predicate HandlerVersion(s: Sys, h: Handler) {
    && (h.pc == Checking ==> exists k :: 0 <= k <= |s.puts| && h.guide == Version(s, k))
    && (h.pc == Putting ==> h.checked <= |s.puts| && h.guide.version == Version(s, h.checked).version + 1)
  }

  /** Every put wrote the version after the one its handler had checked. */
  ghost predicate VersionsOk(s: Sys) {
    && (forall i :: 0 <= i < |s.puts| ==>
          s.puts[i].checked <= i && s.puts[i].guide.version == Version(s, s.puts[i].checked).version + 1)
    && forall h :: h in s.handlers ==> HandlerVersion(s, s.handlers[h])
  }

  /** A handler moves without putting; if its check passed, it drew the next etag. */
  lemma {:induction false} EtagsMoved(s: Sys, t: Sys, h: nat, to: Handler)
    requires EtagsOk(s) && t.handlers == s.handlers[h := to] && t.origin == s.origin && t.puts == s.puts
    requires t.nextEtag == if to.pc == Putting then s.nextEtag + 1 else s.nextEtag
    requires to.pc == Putting ==> to.guide.etag == s.nextEtag
    ensures EtagsOk(t)
  {
    assert forall k :: 0 <= k <= |s.puts| ==> Version(t, k) == Version(s, k);
    forall g | g in t.handlers && t.handlers[g].pc == Putting ensures NotYetPut(t, g) {
      assert g != h ==> NotYetPut(s, g);
    }
  }

  lemma {:induction false} NumbersMoved(s: Sys, t: Sys, h: nat, to: Handler)
    requires VersionsOk(s) && t.handlers == s.handlers[h := to] && t.origin == s.origin && t.puts == s.puts
    requires HandlerVersion(s, to)
    ensures VersionsOk(t)
  {
    assert forall k :: 0 <= k <= |s.puts| ==> Version(t, k) == Version(s, k);
    forall g | g in t.handlers ensures HandlerVersion(t, t.handlers[g]) {
      assert g != h ==> HandlerVersion(s, s.handlers[g]);
    }
  }

  lemma {:induction false} PutExtends(s: Sys, t: Sys)
    requires t.origin == s.origin && |t.puts| == |s.puts| + 1 && t.puts[..|s.puts|] == s.puts
    ensures forall k :: 0 <= k <= |s.puts| ==> Version(t, k) == Version(s, k)
    ensures forall h: Handler :: HandlerVersion(s, h) ==> HandlerVersion(t, h)
  {
    forall k | 0 <= k <= |s.puts| ensures Version(t, k) == Version(s, k) {
      assert k > 0 ==> t.puts[k - 1] == t.puts[..|s.puts|][k - 1];
    }
    forall h: Handler | HandlerVersion(s, h) ensures HandlerVersion(t, h) {
      if h.pc == Checking {
        var k :| 0 <= k <= |s.puts| && h.guide == Version(s, k);
        assert h.guide == Version(t, k);
      }
    }
  }

  lemma {:induction false} EtagsPut(s: Sys, t: Sys, h: nat, to: Handler)
    requires EtagsOk(s) && h in s.handlers && s.handlers[h].pc == Putting && to.pc != Putting
    requires t.origin == s.origin && t.nextEtag == s.nextEtag && t.handlers == s.handlers[h := to]
    requires t.puts == s.puts + [Put(s.handlers[h].guide, s.handlers[h].checked, h)]
    ensures EtagsOk(t)
  {
    PutExtends(s, t);
    assert NotYetPut(s, h);
    assert Version(t, |t.puts|) == s.handlers[h].guide;
    forall g | g in t.handlers && t.handlers[g].pc == Putting ensures NotYetPut(t, g) {
      assert NotYetPut(s, g);
    }
  }

  lemma {:induction false} NumbersPut(s: Sys, t: Sys, h: nat, to: Handler)
    requires VersionsOk(s) && h in s.handlers && s.handlers[h].pc == Putting && (to.pc == Flipping || to.pc == Done)
    requires t.origin == s.origin && t.handlers == s.handlers[h := to]
    requires t.puts == s.puts + [Put(s.handlers[h].guide, s.handlers[h].checked, h)]
    ensures VersionsOk(t)
  {
    PutExtends(s, t);
    assert HandlerVersion(s, s.handlers[h]);
    forall g | g in t.handlers ensures HandlerVersion(t, t.handlers[g]) {
      assert g != h ==> HandlerVersion(s, s.handlers[g]);
    }
    forall i | 0 <= i < |t.puts|
      ensures t.puts[i].checked <= i && t.puts[i].guide.version == Version(t, t.puts[i].checked).version + 1
    {
      assert i < |s.puts| ==> t.puts[i] == s.puts[i];
    }
  }

  /** Equal etags are the same version, so the check's successor is one above it. */
  lemma {:induction false} RecheckedVersion(d: Delta, s: Sys, me: Handler, c: nat)
    requires EtagsOk(s) && me.pc == Checking && HandlerVersion(s, me) && c <= |s.puts|
    ensures var r := Rechecked(d, Version(s, c), me.guide, s.nextEtag);
            r.Updated? ==> r.guide.version == Version(s, c).version + 1 && r.guide.etag == s.nextEtag
  {
    var k :| 0 <= k <= |s.puts| && me.guide == Version(s, k);
    assert Version(s, k).etag == Version(s, c).etag ==> k == c;
  }

  lemma {:induction false} VersionsMoved(s: Sys, t: Sys, h: nat)
    requires EtagsOk(s) && VersionsOk(s) && h in t.handlers && t.handlers == s.handlers[h := t.handlers[h]]
    requires t.origin == s.origin && t.puts == s.puts && HandlerVersion(s, t.handlers[h])
    requires t.nextEtag == if t.handlers[h].pc == Putting then s.nextEtag + 1 else s.nextEtag
    requires t.handlers[h].pc == Putting ==> t.handlers[h].guide.etag == s.nextEtag
    ensures EtagsOk(t) && VersionsOk(t)
  {
    EtagsMoved(s, t, h, t.handlers[h]);
    NumbersMoved(s, t, h, t.handlers[h]);
  }

  lemma {:induction false} CheckingStep(d: Delta, s: Sys, h: nat, answer: Answer, read: Read)
    requires EtagsOk(s) && VersionsOk(s) && h in s.handlers && s.handlers[h].pc == Checking
    ensures var t := Next(d, s, Act(h, answer, read)); EtagsOk(t) && VersionsOk(t)
  {
    var t := Next(d, s, Act(h, answer, read));
    assert HandlerVersion(s, s.handlers[h]);
    RecheckedVersion(d, s, s.handlers[h], Seen(s, read));
    VersionsMoved(s, t, h);
  }

  lemma {:induction false} PuttingStep(d: Delta, s: Sys, h: nat, answer: Answer, read: Read)
    requires EtagsOk(s) && VersionsOk(s) && h in s.handlers && s.handlers[h].pc == Putting
    ensures var t := Next(d, s, Act(h, answer, read)); EtagsOk(t) && VersionsOk(t)
  {
    var t := Next(d, s, Act(h, answer, read));
    if answer.Fails? {
      VersionsMoved(s, t, h);
    } else {
      EtagsPut(s, t, h, t.handlers[h]);
      NumbersPut(s, t, h, t.handlers[h]);
    }
  }

  lemma {:induction false} OtherStep(d: Delta, s: Sys, h: nat, answer: Answer, read: Read)
    requires EtagsOk(s) && VersionsOk(s) && h in s.handlers && s.handlers[h].pc != Checking && s.handlers[h].pc != Putting
    ensures var t := Next(d, s, Act(h, answer, read)); EtagsOk(t) && VersionsOk(t)
  {
    var t := Next(d, s, Act(h, answer, read));
    if t != s {
      assert s.handlers[h].pc == ReadingGuide && !answer.Fails? && !answer.Lost? ==>
          t.handlers[h].guide == Version(s, Seen(s, read));
      VersionsMoved(s, t, h);
    }
  }

  lemma {:induction false} VersionsStep(d: Delta, s: Sys, step: Step)
    requires EtagsOk(s) && VersionsOk(s)
    ensures EtagsOk(Next(d, s, step)) && VersionsOk(Next(d, s, step))
  {
    match step
    case Begin(h, apply) =>
      if h !in s.handlers {
        VersionsMoved(s, Next(d, s, step), h);
      }
    case Act(h, answer, read) =>
      if h in s.handlers {
        if s.handlers[h].pc == Checking {
          CheckingStep(d, s, h, answer, read);
        } else if s.handlers[h].pc == Putting {
          PuttingStep(d, s, h, answer, read);
        } else {
          OtherStep(d, s, h, answer, read);
        }
      }
  }

  lemma {:induction false} VersionsRun(d: Delta, guide: Guide, steps: seq<Step>)
    ensures EtagsOk(Run(d, Initial(guide), steps)) && VersionsOk(Run(d, Initial(guide), steps))
  {
    if steps != [] {
      VersionsRun(d, guide, steps[..|steps| - 1]);
      VersionsStep(d, Run(d, Initial(guide), steps[..|steps| - 1]), steps[|steps| - 1]);
    }
  }

  /** Two different puts stored one version number. */
  ghost predicate VersionShared(s: Sys) {
    exists i, j :: 0 <= i < j < |s.puts| && s.puts[i].guide.version == s.puts[j].guide.version
  }

  /** Put i landed on another guide than the one its handler had checked. */
  ghost predicate LandedElsewhere(s: Sys, i: nat)
    requires i < |s.puts|
  {
    s.puts[i].checked > |s.puts| || Version(s, s.puts[i].checked) != Version(s, i)
  }

  /** While every put lands on what it checked, versions count up. */
  lemma {:induction false} VersionsCountUp(s: Sys, n: nat)
    requires VersionsOk(s) && n <= |s.puts| && forall i :: 0 <= i < n ==> s.puts[i].checked == i
    ensures forall k :: 0 <= k <= n ==> Version(s, k).version == s.origin.version + k
  {
    if n > 0 {
      VersionsCountUp(s, n - 1);
      assert s.puts[n - 1].checked == n - 1;
    }
  }

  /** The first put that landed elsewhere shares its version with an earlier put. */
  lemma {:induction false} ElsewhereShares(s: Sys, i: nat)
    requires VersionsOk(s) && i < |s.puts| && s.puts[i].checked != i
    ensures VersionShared(s)
    decreases i
  {
    if j: nat :| j < i && s.puts[j].checked != j {
      ElsewhereShares(s, j);
    } else {
      VersionsCountUp(s, i);
      var c := s.puts[i].checked;
      assert Version(s, c).version == s.origin.version + c;
      assert Version(s, c + 1).version == s.origin.version + c + 1;
      assert s.puts[c].guide.version == s.puts[i].guide.version;
    }
  }

  /**
   * In every run, two writes share a version if and only if some put landed on a stored guide other
   * than the one its handler had checked.
   */
  lemma {:induction false} VersionsSharedExactly(d: Delta, guide: Guide, steps: seq<Step>)
    ensures var s := Run(d, Initial(guide), steps);
            VersionShared(s) <==> exists i :: 0 <= i < |s.puts| && LandedElsewhere(s, i)
  {
    VersionsRun(d, guide, steps);
    var s := Run(d, Initial(guide), steps);
    forall i | 0 <= i < |s.puts| ensures LandedElsewhere(s, i) <==> s.puts[i].checked != i {
      assert s.puts[i].checked < i ==> Version(s, s.puts[i].checked).etag != Version(s, i).etag;
    }
    if i :| 0 <= i < |s.puts| && LandedElsewhere(s, i) {
      ElsewhereShares(s, i);
    } else {
      VersionsCountUp(s, |s.puts|);
      assert forall i :: 0 <= i < |s.puts| ==> s.puts[i].guide == Version(s, i + 1);
    }
  }

  // ----- what the unconditional put and the late flip allow -----------------------------

  function BothRead(d: Delta, guide: Guide): Sys {
    var s1 := Next(d, Next(d, Initial(guide), Begin(0, true)), Begin(1, true));
    var s2 := Next(d, Next(d, s1, Act(0, Fine, Fresh)), Act(1, Fine, Fresh));
    Next(d, Next(d, s2, Act(0, Fine, Fresh)), Act(1, Fine, Fresh))
  }

  function BothChecked(d: Delta, guide: Guide): Sys {
    Next(d, Next(d, BothRead(d, guide), Act(0, Fine, Fresh)), Act(1, Fine, Fresh))
  }

  /** A delta whose merge the guide's validation accepts. */
  predicate Acceptable(d: Delta, guide: Guide) {
    Rewrites(d) && Rechecked(d, guide, guide, guide.etag + 1).Updated?
  }

  lemma BothHaveRead(d: Delta, guide: Guide)
    requires Rewrites(d)
    ensures BothRead(d, guide) == Initial(guide).(handlers := map[
              0 := Handler(true, Checking, guide, 0), 1 := Handler(true, Checking, guide, 0)])
  {
    var s1 := Next(d, Next(d, Initial(guide), Begin(0, true)), Begin(1, true));
    var s2 := Next(d, Next(d, s1, Act(0, Fine, Fresh)), Act(1, Fine, Fresh));
    assert s2.handlers == map[0 := Handler(true, ReadingGuide, guide, 0), 1 := Handler(true, ReadingGuide, guide, 0)];
    var s3 := Next(d, Next(d, s2, Act(0, Fine, Fresh)), Act(1, Fine, Fresh));
    assert s3.handlers == map[0 := Handler(true, Checking, guide, 0), 1 := Handler(true, Checking, guide, 0)];
  }

  lemma BothAreChecked(d: Delta, guide: Guide)
    requires Acceptable(d, guide)
    ensures var s := BothChecked(d, guide);
            && 0 in s.handlers && 1 in s.handlers && s.puts == [] && s.origin == guide
            && s.handlers[0].pc == Putting && s.handlers[1].pc == Putting
            && s.handlers[0].checked == 0 && s.handlers[1].checked == 0
            && s.handlers[0].guide.version == s.handlers[1].guide.version
            && s.handlers[0].guide.etag == guide.etag + 1
  {
    BothHaveRead(d, guide);
  }

  /** Two applies that checked the same etag both write, and their two writes share a version. */
  lemma TwoWritesShareAVersion(d: Delta, guide: Guide)
    requires Acceptable(d, guide)
    ensures var s := Next(d, Next(d, BothChecked(d, guide), Act(0, Fine, Fresh)), Act(1, Fine, Fresh));
            |s.puts| == 2 && VersionShared(s) && LandedElsewhere(s, 1)
  {
    BothAreChecked(d, guide);
    var s := BothChecked(d, guide);
    BothPut(d, s);
  }

  lemma BothPut(d: Delta, s: Sys)
    requires 0 in s.handlers && 1 in s.handlers && s.puts == []
    requires s.handlers[0].pc == Putting && s.handlers[1].pc == Putting
    requires s.handlers[0].checked == 0 && s.handlers[1].checked == 0
    requires s.handlers[0].guide.version == s.handlers[1].guide.version
    requires s.handlers[0].guide.etag == s.origin.etag + 1
    ensures var t := Next(d, Next(d, s, Act(0, Fine, Fresh)), Act(1, Fine, Fresh));
            |t.puts| == 2 && VersionShared(t) && LandedElsewhere(t, 1)
  {
    var t := Next(d, Next(d, s, Act(0, Fine, Fresh)), Act(1, Fine, Fresh));
    assert t.puts[0].guide == s.handlers[0].guide && t.puts[1].guide == s.handlers[1].guide;
  }

  /** A dismissed delta may nevertheless have changed the guide: the put comes before the flip. */
  lemma DismissedButMerged(d: Delta, guide: Guide)
    requires Acceptable(d, guide)
    ensures var s1 := Next(d, Next(d, Initial(guide), Begin(0, true)), Begin(1, false));
            var s2 := Next(d, Next(d, s1, Act(0, Fine, Fresh)), Act(1, Fine, Fresh));
            var s3 := Next(d, Next(d, Next(d, s2, Act(0, Fine, Fresh)), Act(0, Fine, Fresh)), Act(0, Fine, Fresh));
            var s := Next(d, s3, Act(1, Fine, Fresh));
            s.status == Dismissed && Current(s).content == ApplyDelta(guide.content, d)
  {
    var s1 := Next(d, Next(d, Initial(guide), Begin(0, true)), Begin(1, false));
    var s2 := Next(d, Next(d, s1, Act(0, Fine, Fresh)), Act(1, Fine, Fresh));
    assert s2.handlers[0].pc == ReadingGuide && s2.handlers[1].pc == Flipping;
    var s2a := Next(d, s2, Act(0, Fine, Fresh));
    assert s2a.handlers[0].guide == guide;
    var s2b := Next(d, s2a, Act(0, Fine, Fresh));
    assert s2b.handlers[0].pc == Putting && s2b.handlers[1].pc == Flipping;
  }
}
