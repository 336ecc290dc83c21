/**
 * The sender: any number of workers over any deliveries of email.approved events, sharing one
 * table. A worker moves one remote call at a time; between two calls anything may happen.
 */
module Sender {
  import opened Common
  import Idempotency

  const CONSUMER := "sender"

  /** SHA-256, taken as injective. */
  datatype Digest = Sha256(preimage: string)

  function SendDedupKey(contactId: string, websiteId: string): Digest {
    Sha256(contactId + "|" + websiteId)
  }

  datatype Detail = Detail(businessId: string, draftId: string, websiteId: string, contactId: string)
  datatype Envelope = Envelope(eventId: string, detail: Detail)

  /** The shared rows: item keys are the tuples the partition and sort keys are built from. */
  datatype Table = Table(
    records: Idempotency.Records,
    drafts: map<(string, string), string>,
    markers: set<(string, Digest)>,
    events: set<(string, string)>,
    msgIndex: map<string, Detail>,
    replyRefs: map<string, Detail>,
    cleanupDue: map<(string, string), int>)

  /** Where a worker is: the remote call it makes next. */
  datatype Pc =
    | Claiming | LoadingDraft | LoadingContact | CheckingSuppression | ClaimingMarker
    | CheckingBudget | Sending | RecordingSpend
    | PuttingEvent | PuttingMsgIndex | PuttingReplyRef | MarkingDraft | StampingCleanup | Publishing
    | Done(ok: bool)

  /** What a worker has done that the send depends on, and the send itself. */
  datatype Action =
    | Started(at: int)
    | SawApproved(businessId: string, draftId: string)
    | SawNotSuppressed(email: string)
    | ClaimedMarker(businessId: string, key: Digest)
    | CalledSend(detail: Detail, email: string)

  datatype Worker = Worker(env: Envelope, pc: Pc, startedAt: int, email: string, msgId: string, trace: seq<Action>)

  function NewWorker(env: Envelope): Worker {
    Worker(env, Claiming, 0, "", "", [])
  }

  /** How a remote call ends. `Lost` is a call that took effect though the caller saw an error. */
  datatype Answer =
    | Fails
    | Lost
    | Fine
    | EarlierDraft(status: string)       // the draft read shows an earlier version
    | Contact(email: Option<string>)
    | Suppressed(yes: bool)
    | WithinBudget(yes: bool)
    | Accepted(msgId: string)

  predicate Incomplete(d: Detail) {
    d.businessId == "" || d.draftId == "" || d.contactId == "" || d.websiteId == ""
  }

  predicate ReportsError(a: Answer) {
    a.Fails? || a.Lost?
  }

  function MarkerOf(d: Detail): (string, Digest) {
    (d.businessId, SendDedupKey(d.contactId, d.websiteId))
  }

  function Stop(w: Worker, ok: bool): Worker {
    w.(pc := Done(ok))
  }

  /** The status a draft read shows; empty when there is no row. */
  function DraftSeen(drafts: map<(string, string), string>, d: Detail, a: Answer): string {
    if a.EarlierDraft? then a.status
    else if (d.businessId, d.draftId) in drafts then drafts[(d.businessId, d.draftId)]
    else ""
  }

  /** One remote call of one worker. */
  function Advance(t: Table, now: int, w: Worker, a: Answer): (Table, Worker) {
    var d := w.env.detail;
    match w.pc
    case Claiming =>
      var c := Idempotency.ClaimResult(t.records, CONSUMER, w.env.eventId, ReportsError(a));
      var t' := if a.Lost? then t.(records := Idempotency.AfterClaim(t.records, CONSUMER, w.env.eventId, now, false))
                else t.(records := Idempotency.AfterClaim(t.records, CONSUMER, w.env.eventId, now, ReportsError(a)));
      if c.Refused? then (t', Stop(w, false))
      else if c.AlreadyProcessed? then (t', Stop(w, true))
      else
        var w' := w.(startedAt := now, trace := [Started(now)]);
        (t', if Incomplete(d) then Stop(w', true) else w'.(pc := LoadingDraft))
    case LoadingDraft =>
      if ReportsError(a) then (t, Stop(w, false))
      else if DraftSeen(t.drafts, d, a) != "approved" then (t, Stop(w, true))
      else (t, w.(pc := LoadingContact, trace := w.trace + [SawApproved(d.businessId, d.draftId)]))
    case LoadingContact =>
      if !a.Contact? then (t, Stop(w, false))
      else if a.email.None? || Blank(a.email.value) then (t, Stop(w, true))
      else (t, w.(pc := CheckingSuppression, email := a.email.value))
    case CheckingSuppression =>
      if !a.Suppressed? then (t, Stop(w, false))
      else if a.yes then (t, Stop(w, true))
      else (t, w.(pc := ClaimingMarker, trace := w.trace + [SawNotSuppressed(w.email)]))
    case ClaimingMarker =>
      if a.Fails? then (t, Stop(w, false))
      else if a.Lost? then (t.(markers := t.markers + {MarkerOf(d)}), Stop(w, false))
      else if MarkerOf(d) in t.markers then (t, Stop(w, true))
      else (t.(markers := t.markers + {MarkerOf(d)}),
            w.(pc := CheckingBudget, trace := w.trace + [ClaimedMarker(MarkerOf(d).0, MarkerOf(d).1)]))
    case CheckingBudget =>
      if a.WithinBudget? && a.yes then (t, w.(pc := Sending)) else (t, Stop(w, false))
    case Sending =>
      var w' := w.(trace := w.trace + [CalledSend(d, w.email)]);
      if a.Accepted? then (t, w'.(pc := RecordingSpend, msgId := a.msgId)) else (t, Stop(w', false))
    case RecordingSpend =>
      (t, if ReportsError(a) then Stop(w, false) else w.(pc := PuttingEvent))
    case PuttingEvent =>
      if a.Fails? then (t, Stop(w, false))
      else (t.(events := t.events + {(d.businessId, w.msgId)}),
            if a.Lost? then Stop(w, false) else w.(pc := PuttingMsgIndex))
    case PuttingMsgIndex =>
      if a.Fails? then (t, Stop(w, false))
      else (t.(msgIndex := t.msgIndex[w.msgId := d]), if a.Lost? then Stop(w, false) else w.(pc := PuttingReplyRef))
    case PuttingReplyRef =>
      if a.Fails? then (t, Stop(w, false))
      else (t.(replyRefs := t.replyRefs[d.draftId := d]), if a.Lost? then Stop(w, false) else w.(pc := MarkingDraft))
    case MarkingDraft =>
      if a.Fails? then (t, Stop(w, false))
      else (t.(drafts := t.drafts[(d.businessId, d.draftId) := "sent"]),
            if a.Lost? then Stop(w, false) else w.(pc := StampingCleanup))
    case StampingCleanup =>
      // Best effort: a failure is logged and the send carries on.
      var site := (d.businessId, d.websiteId);
      (if a.Fails? || site !in t.cleanupDue then t else t.(cleanupDue := t.cleanupDue[site := now + 86_400]),
       w.(pc := Publishing))
    case Publishing => (t, Stop(w, !ReportsError(a)))
    case Done(_) => (t, w)
  }

  // ----- the handler as one Lambda invocation runs it ------------------------------

  /** All the calls of one worker, with nothing else running. */
  function Drive(t: Table, now: int, w: Worker, answers: seq<Answer>): (Table, Worker)
    decreases |answers|
  {
    if answers == [] then (t, w)
    else
      var r := Advance(t, now, w, answers[0]);
      Drive(r.0, now, r.1, answers[1..])
  }

  lemma {:induction false} DoneStays(t: Table, now: int, w: Worker, answers: seq<Answer>)
    requires w.pc.Done?
    ensures Drive(t, now, w, answers) == (t, w)
    decreases |answers|
  {
    if answers != [] {
      DoneStays(t, now, w, answers[1..]);
    }
  }

  lemma {:induction false} DriveOne(t: Table, now: int, w: Worker, answers: seq<Answer>, i: nat)
    requires i < |answers|
    ensures var r := Advance(t, now, w, answers[i]);
            Drive(t, now, w, answers[i..]) == Drive(r.0, now, r.1, answers[i + 1..])
  {
    assert answers[i..][1..] == answers[i + 1..];
  }

  /** Remote calls a record can take: the idempotency put down to the email.sent publish. */
  const CALLS := 14

  class Lambda {
    var records: Idempotency.Records
    var drafts: map<(string, string), string>
    var markers: set<(string, Digest)>
    var events: set<(string, string)>
    var msgIndex: map<string, Detail>
    var replyRefs: map<string, Detail>
    var cleanupDue: map<(string, string), int>

    ghost function Rows(): Table
      reads this
    {
      Table(records, drafts, markers, events, msgIndex, replyRefs, cleanupDue)
    }

    /**
     * processRecord and runOne, call by call. `to` is the address SES was called with, if it was.
     * `w` follows the worker of the interleaved model: the invocation, run alone, does exactly
     * what that worker does.
     */
    method ProcessRecord(env: Envelope, now: int, answers: seq<Answer>)
      returns (ok: bool, to: Option<string>, ghost w: Worker)
      requires |answers| == CALLS
      modifies this
      // SES is called exactly when the event is new, complete and every guard said yes.
      ensures to.Some? <==>
                && env.eventId != "" && "IDEMP#sender#" + env.eventId !in old(records)
                && env.detail.businessId != "" && env.detail.draftId != ""
                && env.detail.contactId != "" && env.detail.websiteId != ""
                && AllFine(answers, 0, 2) && AllFine(answers, 4, 5)
                && ShowsApproved(old(drafts), env.detail, answers[1])
                && answers[2].Contact? && answers[2].email.Some? && !Blank(answers[2].email.value)
                && answers[3] == Suppressed(false)
                && (env.detail.businessId, Sha256(env.detail.contactId + "|" + env.detail.websiteId)) !in old(markers)
                && answers[5] == WithinBudget(true)
      ensures to.Some? ==> to == answers[2].email && CalledSend(env.detail, to.value) in w.trace
      ensures to.None? ==> NoSend(w.trace)
      // Short of a send the run answers ok for what is done or not to be done.
      ensures var seen := "IDEMP#sender#" + env.eventId in old(records);
              to.None? ==>
                (ok <==> env.eventId != "" && AllFine(answers, 0, 1)
                         && (seen || Incomplete(env.detail) || Skips(old(drafts), old(markers), env.detail, answers)))
      ensures markers == if env.eventId != "" && AllFine(answers, 0, 1) && "IDEMP#sender#" + env.eventId !in old(records)
                            && !Incomplete(env.detail) && GuardsPass(old(drafts), env.detail, answers) && !answers[4].Fails?
                         then old(markers) + {(env.detail.businessId, Sha256(env.detail.contactId + "|" + env.detail.websiteId))}
                         else old(markers)
      ensures records == if env.eventId != "" && !answers[0].Fails? && "IDEMP#sender#" + env.eventId !in old(records)
                         then old(records)["IDEMP#sender#" + env.eventId := now + 86_400] else old(records)
      // After an accepted send the records are written in order, up to the first call that fails.
      ensures var on := to.Some? && answers[6].Accepted?;
              && events == (if on && AllFine(answers, 7, 8) && !answers[8].Fails?
                            then old(events) + {(env.detail.businessId, answers[6].msgId)} else old(events))
              && msgIndex == (if on && AllFine(answers, 7, 9) && !answers[9].Fails?
                              then old(msgIndex)[answers[6].msgId := env.detail] else old(msgIndex))
              && replyRefs == (if on && AllFine(answers, 7, 10) && !answers[10].Fails?
                               then old(replyRefs)[env.detail.draftId := env.detail] else old(replyRefs))
              && drafts == (if on && AllFine(answers, 7, 11) && !answers[11].Fails?
                            then old(drafts)[(env.detail.businessId, env.detail.draftId) := "sent"] else old(drafts))
              && cleanupDue == (if on && AllFine(answers, 7, 12) && !answers[12].Fails? && SiteOf(env.detail) in old(cleanupDue)
                                then old(cleanupDue)[SiteOf(env.detail) := now + 86_400] else old(cleanupDue))
      ensures to.Some? ==> (ok <==> answers[6].Accepted? && AllFine(answers, 7, 12) && AllFine(answers, 13, 14))
      ensures w.pc == Done(ok)
      ensures (Rows(), w) == Drive(old(Rows()), now, NewWorker(env), answers)
    {
      var d := env.detail;
      w := NewWorker(env);
      assert answers[0..] == answers;

      DriveOne(Rows(), now, w, answers, 0);
      w := Advance(Rows(), now, w, answers[0]).1;
      var key := Idempotency.Key(CONSUMER, env.eventId);
      assert key == "IDEMP#sender#" + env.eventId;
      if answers[0].Fails? || env.eventId == "" {
        DoneStays(Rows(), now, w, answers[1..]);
        return false, None, w;
      }
      var seen := key in records;
      if !seen {
        records := records[key := now + Idempotency.DEFAULT_TTL];
      }
      if answers[0].Lost? {
        DoneStays(Rows(), now, w, answers[1..]);
        return false, None, w;
      }
      if seen || d.businessId == "" || d.draftId == "" || d.contactId == "" || d.websiteId == "" {
        DoneStays(Rows(), now, w, answers[1..]);
        return true, None, w;
      }
      ok, to, w := RunOne(d, now, answers, w);
    }

    /** From the draft read on: the guards, then the claim of the marker. */
    method RunOne(d: Detail, now: int, answers: seq<Answer>, ghost w0: Worker)
      returns (ok: bool, to: Option<string>, ghost w: Worker)
      requires |answers| == CALLS && w0.pc == LoadingDraft && w0.env.detail == d && NoSend(w0.trace)
      modifies this`drafts, this`markers, this`events, this`msgIndex, this`replyRefs, this`cleanupDue
      ensures to.Some? <==>
                && AllFine(answers, 1, 2) && AllFine(answers, 4, 5)
                && ShowsApproved(old(drafts), d, answers[1])
                && answers[2].Contact? && answers[2].email.Some? && !Blank(answers[2].email.value)
                && answers[3] == Suppressed(false)
                && (d.businessId, Sha256(d.contactId + "|" + d.websiteId)) !in old(markers)
                && answers[5] == WithinBudget(true)
      ensures to.Some? ==> to == answers[2].email && CalledSend(d, to.value) in w.trace
      ensures to.None? ==> NoSend(w.trace) && (ok <==> Skips(old(drafts), old(markers), d, answers))
      ensures markers == if GuardsPass(old(drafts), d, answers) && !answers[4].Fails? then
                           old(markers) + {(d.businessId, Sha256(d.contactId + "|" + d.websiteId))} else old(markers)
      ensures Recorded(to.Some? && answers[6].Accepted?, answers, d, now, old(Rows()), Rows())
      ensures to.Some? ==> (ok <==> answers[6].Accepted? && AllFine(answers, 7, 12) && AllFine(answers, 13, 14))
      ensures w.pc == Done(ok)
      ensures (Rows(), w) == Drive(old(Rows()), now, w0, answers[1..])
    {
      w := w0;
      DriveOne(Rows(), now, w, answers, 1);
      w := Advance(Rows(), now, w, answers[1]).1;
      if answers[1].Fails? || answers[1].Lost? {
        DoneStays(Rows(), now, w, answers[2..]);
        return false, None, w;
      }
      if DraftSeen(drafts, d, answers[1]) != "approved" {
        DoneStays(Rows(), now, w, answers[2..]);
        return true, None, w;
      }

      DriveOne(Rows(), now, w, answers, 2);
      w := Advance(Rows(), now, w, answers[2]).1;
      if !answers[2].Contact? {
        DoneStays(Rows(), now, w, answers[3..]);
        return false, None, w;
      }
      if answers[2].email.None? || Blank(answers[2].email.value) {
        DoneStays(Rows(), now, w, answers[3..]);
        return true, None, w;
      }
      ok, to, w := ClaimAndSend(d, answers[2].email.value, now, answers, w);
    }

    /** From the suppression check on. */
    method ClaimAndSend(d: Detail, email: string, now: int, answers: seq<Answer>, ghost w0: Worker)
      returns (ok: bool, to: Option<string>, ghost w: Worker)
      requires |answers| == CALLS && w0.pc == CheckingSuppression && w0.env.detail == d && w0.email == email && NoSend(w0.trace)
      modifies this`drafts, this`markers, this`events, this`msgIndex, this`replyRefs, this`cleanupDue
      ensures to.Some? <==>
                && answers[3] == Suppressed(false) && AllFine(answers, 4, 5)
                && (d.businessId, Sha256(d.contactId + "|" + d.websiteId)) !in old(markers)
                && answers[5] == WithinBudget(true)
      ensures to.Some? ==> to == Some(email) && CalledSend(d, email) in w.trace
      ensures to.None? ==> NoSend(w.trace)
      ensures to.None? ==> (ok <==> answers[3] == Suppressed(true) ||
                                    (answers[3] == Suppressed(false) && AllFine(answers, 4, 5)
                                     && (d.businessId, Sha256(d.contactId + "|" + d.websiteId)) in old(markers)))
      ensures markers == if answers[3] == Suppressed(false) && !answers[4].Fails? then
                           old(markers) + {(d.businessId, Sha256(d.contactId + "|" + d.websiteId))} else old(markers)
      ensures Recorded(to.Some? && answers[6].Accepted?, answers, d, now, old(Rows()), Rows())
      ensures to.Some? ==> (ok <==> answers[6].Accepted? && AllFine(answers, 7, 12) && AllFine(answers, 13, 14))
      ensures w.pc == Done(ok)
      ensures (Rows(), w) == Drive(old(Rows()), now, w0, answers[3..])
    {
      // An unknown answer about suppression must not read as "not suppressed".
      w := w0;
      DriveOne(Rows(), now, w, answers, 3);
      w := Advance(Rows(), now, w, answers[3]).1;
      if !answers[3].Suppressed? || answers[3].yes {
        DoneStays(Rows(), now, w, answers[4..]);
        return answers[3].Suppressed?, None, w;
      }
      var called;
      ok, called, w := ClaimMarker(d, now, answers, w);
      to := if called then Some(email) else None;
    }

    /** The marker's claim, and the send for whoever got it. */
    method ClaimMarker(d: Detail, now: int, answers: seq<Answer>, ghost w0: Worker)
      returns (ok: bool, called: bool, ghost w: Worker)
      requires |answers| == CALLS && w0.pc == ClaimingMarker && w0.env.detail == d && NoSend(w0.trace)
      modifies this`drafts, this`markers, this`events, this`msgIndex, this`replyRefs, this`cleanupDue
      ensures var marker := (d.businessId, Sha256(d.contactId + "|" + d.websiteId));
              && markers == (if answers[4].Fails? then old(markers) else old(markers) + {marker})
              && (called <==> AllFine(answers, 4, 5) && marker !in old(markers) && answers[5] == WithinBudget(true))
              && (!called ==> (ok <==> AllFine(answers, 4, 5) && marker in old(markers)))
      ensures called ==> CalledSend(d, w0.email) in w.trace
      ensures !called ==> NoSend(w.trace)
      ensures Recorded(called && answers[6].Accepted?, answers, d, now, old(Rows()), Rows())
      ensures called ==> (ok <==> answers[6].Accepted? && AllFine(answers, 7, 12) && AllFine(answers, 13, 14))
      ensures w.pc == Done(ok)
      ensures (Rows(), w) == Drive(old(Rows()), now, w0, answers[4..])
    {
      w := w0;
      DriveOne(Rows(), now, w, answers, 4);
      w := Advance(Rows(), now, w, answers[4]).1;
      var first := MarkSentOnce(d, answers[4]);
      if first != Some(true) {
        DoneStays(Rows(), now, w, answers[5..]);
        return first.Some?, false, w;
      }
      ghost var before := w.trace;
      ok, called, w := SendClaimed(d, now, answers, w);
      assert called ==> w.trace[|before|] == CalledSend(d, w0.email);
    }

    /** None is an error, Some(true) means this call claimed the marker. */
    method MarkSentOnce(d: Detail, a: Answer) returns (first: Option<bool>)
      modifies this`markers
      ensures var marker := (d.businessId, Sha256(d.contactId + "|" + d.websiteId));
              && markers == (if a.Fails? then old(markers) else old(markers) + {marker})
              && (marker in old(markers) ==> markers == old(markers))
              && first == if a.Fails? || a.Lost? then None else Some(marker !in old(markers))
    {
      if a.Fails? {
        return None;
      }
      var marker := (d.businessId, Sha256(d.contactId + "|" + d.websiteId));
      var taken := marker in markers;
      if !taken {
        markers := markers + {marker};
      }
      return if a.Lost? then None else Some(!taken);
    }

    /** The budget check, the send, and the spend's record. */
    method SendClaimed(d: Detail, now: int, answers: seq<Answer>, ghost w0: Worker)
      returns (ok: bool, called: bool, ghost w: Worker)
      requires |answers| == CALLS && w0.pc == CheckingBudget && w0.env.detail == d
      modifies this`drafts, this`events, this`msgIndex, this`replyRefs, this`cleanupDue
      ensures called <==> answers[5] == WithinBudget(true)
      ensures w.trace == w0.trace + if called then [CalledSend(d, w0.email)] else []
      ensures Recorded(called && answers[6].Accepted?, answers, d, now, old(Rows()), Rows())
      ensures ok <==> called && answers[6].Accepted? && AllFine(answers, 7, 12) && AllFine(answers, 13, 14)
      ensures w.pc == Done(ok)
      ensures (Rows(), w) == Drive(old(Rows()), now, w0, answers[5..])
    {
      w := w0;
      DriveOne(Rows(), now, w, answers, 5);
      w := Advance(Rows(), now, w, answers[5]).1;
      if !answers[5].WithinBudget? || !answers[5].yes {
        DoneStays(Rows(), now, w, answers[6..]);
        return false, false, w;
      }
      DriveOne(Rows(), now, w, answers, 6);
      w := Advance(Rows(), now, w, answers[6]).1;
      if !answers[6].Accepted? {
        DoneStays(Rows(), now, w, answers[7..]);
        return false, true, w;
      }
      ok, w := RecordSpend(d, answers[6].msgId, now, answers, w);
      called := true;
    }

    /** The ledger comes first: a failure there stops all that follows. */
    method RecordSpend(d: Detail, msgId: string, now: int, answers: seq<Answer>, ghost w0: Worker)
      returns (ok: bool, ghost w: Worker)
      requires |answers| == CALLS && answers[6] == Accepted(msgId)
      requires w0.pc == RecordingSpend && w0.env.detail == d && w0.msgId == msgId
      modifies this`drafts, this`events, this`msgIndex, this`replyRefs, this`cleanupDue
      ensures Recorded(true, answers, d, now, old(Rows()), Rows())
      ensures ok <==> AllFine(answers, 7, 12) && AllFine(answers, 13, 14)
      ensures w.pc == Done(ok) && w.trace == w0.trace
      ensures (Rows(), w) == Drive(old(Rows()), now, w0, answers[7..])
    {
      w := w0;
      DriveOne(Rows(), now, w, answers, 7);
      w := Advance(Rows(), now, w, answers[7]).1;
      if answers[7].Fails? || answers[7].Lost? {
        DoneStays(Rows(), now, w, answers[8..]);
        return false, w;
      }
      ok, w := AfterSend(d, msgId, now, answers, w);
    }

    method AfterSend(d: Detail, msgId: string, now: int, answers: seq<Answer>, ghost w0: Worker)
      returns (ok: bool, ghost w: Worker)
      requires |answers| == CALLS && w0.pc == PuttingEvent && w0.env.detail == d && w0.msgId == msgId
      modifies this`drafts, this`events, this`msgIndex, this`replyRefs, this`cleanupDue
      ensures events == if answers[8].Fails? then old(events) else old(events) + {(d.businessId, msgId)}
      ensures msgIndex == if AllFine(answers, 8, 9) && !answers[9].Fails? then old(msgIndex)[msgId := d] else old(msgIndex)
      ensures replyRefs == if AllFine(answers, 8, 10) && !answers[10].Fails? then old(replyRefs)[d.draftId := d] else old(replyRefs)
      ensures drafts == if AllFine(answers, 8, 11) && !answers[11].Fails?
                        then old(drafts)[(d.businessId, d.draftId) := "sent"] else old(drafts)
      ensures cleanupDue == if AllFine(answers, 8, 12) && !answers[12].Fails? && SiteOf(d) in old(cleanupDue)
                            then old(cleanupDue)[SiteOf(d) := now + 86_400] else old(cleanupDue)
      ensures ok <==> AllFine(answers, 8, 12) && AllFine(answers, 13, 14)
      ensures w.pc == Done(ok) && w.trace == w0.trace
      ensures (Rows(), w) == Drive(old(Rows()), now, w0, answers[8..])
    {
      w := w0;
      DriveOne(Rows(), now, w, answers, 8);
      w := Advance(Rows(), now, w, answers[8]).1;
      if !answers[8].Fails? {
        events := events + {(d.businessId, msgId)};
      }
      if answers[8].Fails? || answers[8].Lost? {
        DoneStays(Rows(), now, w, answers[9..]);
        return false, w;
      }
      ok, w := IndexMessage(d, msgId, now, answers, w);
    }

    method IndexMessage(d: Detail, msgId: string, now: int, answers: seq<Answer>, ghost w0: Worker)
      returns (ok: bool, ghost w: Worker)
      requires |answers| == CALLS && w0.pc == PuttingMsgIndex && w0.env.detail == d && w0.msgId == msgId
      modifies this`drafts, this`msgIndex, this`replyRefs, this`cleanupDue
      ensures msgIndex == if answers[9].Fails? then old(msgIndex) else old(msgIndex)[msgId := d]
      ensures replyRefs == if AllFine(answers, 9, 10) && !answers[10].Fails? then old(replyRefs)[d.draftId := d] else old(replyRefs)
      ensures drafts == if AllFine(answers, 9, 11) && !answers[11].Fails?
                        then old(drafts)[(d.businessId, d.draftId) := "sent"] else old(drafts)
      ensures cleanupDue == if AllFine(answers, 9, 12) && !answers[12].Fails? && SiteOf(d) in old(cleanupDue)
                            then old(cleanupDue)[SiteOf(d) := now + 86_400] else old(cleanupDue)
      ensures ok <==> AllFine(answers, 9, 12) && AllFine(answers, 13, 14)
      ensures w.pc == Done(ok) && w.trace == w0.trace
      ensures (Rows(), w) == Drive(old(Rows()), now, w0, answers[9..])
    {
      w := w0;
      DriveOne(Rows(), now, w, answers, 9);
      w := Advance(Rows(), now, w, answers[9]).1;
      if !answers[9].Fails? {
        msgIndex := msgIndex[msgId := d];
      }
      if answers[9].Fails? || answers[9].Lost? {
        DoneStays(Rows(), now, w, answers[10..]);
        return false, w;
      }
      ok, w := IndexReply(d, now, answers, w);
    }

    method IndexReply(d: Detail, now: int, answers: seq<Answer>, ghost w0: Worker) returns (ok: bool, ghost w: Worker)
      requires |answers| == CALLS && w0.pc == PuttingReplyRef && w0.env.detail == d
      modifies this`drafts, this`replyRefs, this`cleanupDue
      ensures replyRefs == if answers[10].Fails? then old(replyRefs) else old(replyRefs)[d.draftId := d]
      ensures drafts == if AllFine(answers, 10, 11) && !answers[11].Fails?
                        then old(drafts)[(d.businessId, d.draftId) := "sent"] else old(drafts)
      ensures cleanupDue == if AllFine(answers, 10, 12) && !answers[12].Fails? && SiteOf(d) in old(cleanupDue)
                            then old(cleanupDue)[SiteOf(d) := now + 86_400] else old(cleanupDue)
      ensures ok <==> AllFine(answers, 10, 12) && AllFine(answers, 13, 14)
      ensures w.pc == Done(ok) && w.trace == w0.trace
      ensures (Rows(), w) == Drive(old(Rows()), now, w0, answers[10..])
    {
      w := w0;
      DriveOne(Rows(), now, w, answers, 10);
      w := Advance(Rows(), now, w, answers[10]).1;
      if !answers[10].Fails? {
        replyRefs := replyRefs[d.draftId := d];
      }
      if answers[10].Fails? || answers[10].Lost? {
        DoneStays(Rows(), now, w, answers[11..]);
        return false, w;
      }
      ok, w := CloseRecord(d, now, answers, w);
    }

    method CloseRecord(d: Detail, now: int, answers: seq<Answer>, ghost w0: Worker) returns (ok: bool, ghost w: Worker)
      requires |answers| == CALLS && w0.pc == MarkingDraft && w0.env.detail == d
      modifies this`drafts, this`cleanupDue
      ensures drafts == if answers[11].Fails? then old(drafts) else old(drafts)[(d.businessId, d.draftId) := "sent"]
      ensures cleanupDue == if AllFine(answers, 11, 12) && !answers[12].Fails? && SiteOf(d) in old(cleanupDue)
                            then old(cleanupDue)[SiteOf(d) := now + 86_400] else old(cleanupDue)
      ensures ok <==> AllFine(answers, 11, 12) && AllFine(answers, 13, 14)
      ensures w.pc == Done(ok) && w.trace == w0.trace
      ensures (Rows(), w) == Drive(old(Rows()), now, w0, answers[11..])
    {
      w := w0;
      DriveOne(Rows(), now, w, answers, 11);
      w := Advance(Rows(), now, w, answers[11]).1;
      if !answers[11].Fails? {
        drafts := drafts[(d.businessId, d.draftId) := "sent"];
      }
      if answers[11].Fails? || answers[11].Lost? {
        DoneStays(Rows(), now, w, answers[12..]);
        return false, w;
      }
      ok, w := StampAndPublish(d, now, answers, w);
    }

    /** The stamp is best effort; what the run answers is up to the publish. */
    method StampAndPublish(d: Detail, now: int, answers: seq<Answer>, ghost w0: Worker) returns (ok: bool, ghost w: Worker)
      requires |answers| == CALLS && w0.pc == StampingCleanup && w0.env.detail == d
      modifies this`cleanupDue
      ensures cleanupDue == if !answers[12].Fails? && SiteOf(d) in old(cleanupDue)
                            then old(cleanupDue)[SiteOf(d) := now + 86_400] else old(cleanupDue)
      ensures ok <==> AllFine(answers, 13, 14)
      ensures w.pc == Done(ok) && w.trace == w0.trace
      ensures (Rows(), w) == Drive(old(Rows()), now, w0, answers[12..])
    {
      w := w0;
      DriveOne(Rows(), now, w, answers, 12);
      w := Advance(Rows(), now, w, answers[12]).1;
      if !answers[12].Fails? && (d.businessId, d.websiteId) in cleanupDue {
        cleanupDue := cleanupDue[(d.businessId, d.websiteId) := now + 86_400];
      }
      DriveOne(Rows(), now, w, answers, 13);
      w := Advance(Rows(), now, w, answers[13]).1;
      DoneStays(Rows(), now, w, answers[14..]);
      return !(answers[13].Fails? || answers[13].Lost?), w;
    }
  }

  /** The calls numbered from..to are all known to have succeeded. */
  predicate AllFine(answers: seq<Answer>, from: nat, to: nat)
    requires to <= |answers|
  {
    forall i :: from <= i < to ==> !answers[i].Fails? && !answers[i].Lost?
  }

  /** The draft read shows an approved draft: the row as it is, or an earlier version of it. */
  predicate ShowsApproved(drafts: map<(string, string), string>, d: Detail, a: Answer) {
    if a.EarlierDraft? then a.status == "approved"
    else (d.businessId, d.draftId) in drafts && drafts[(d.businessId, d.draftId)] == "approved"
  }

  /** The draft is approved, the contact has an address, and the address is not suppressed. */
  predicate GuardsPass(drafts: map<(string, string), string>, d: Detail, answers: seq<Answer>)
    requires |answers| == CALLS
  {
    && AllFine(answers, 1, 2) && ShowsApproved(drafts, d, answers[1])
    && answers[2].Contact? && answers[2].email.Some? && !Blank(answers[2].email.value)
    && answers[3] == Suppressed(false)
  }

  /** Nothing to send, nobody to send it to, not wanted, or sent already. */
  predicate Skips(drafts: map<(string, string), string>, markers: set<(string, Digest)>, d: Detail, answers: seq<Answer>)
    requires |answers| == CALLS
  {
    AllFine(answers, 1, 2) &&
    (!ShowsApproved(drafts, d, answers[1])
     || (answers[2].Contact?
         && (answers[2].email.None? || Blank(answers[2].email.value) || answers[3] == Suppressed(true)
             || (GuardsPass(drafts, d, answers) && AllFine(answers, 4, 5)
                 && (d.businessId, Sha256(d.contactId + "|" + d.websiteId)) in markers))))
  }

  predicate NoSend(trace: seq<Action>) {
    forall i :: 0 <= i < |trace| ==> !trace[i].CalledSend?
  }

  function SiteOf(d: Detail): (string, string) {
    (d.businessId, d.websiteId)
  }

  /** What an accepted send leaves: the records in order, up to the first call that fails; nothing otherwise. */
  ghost predicate Recorded(accepted: bool, answers: seq<Answer>, d: Detail, now: int, before: Table, after: Table)
    requires |answers| == CALLS && (accepted ==> answers[6].Accepted?)
  {
    && after.events == (if accepted && AllFine(answers, 7, 8) && !answers[8].Fails?
                        then before.events + {(d.businessId, answers[6].msgId)} else before.events)
    && after.msgIndex == (if accepted && AllFine(answers, 7, 9) && !answers[9].Fails?
                          then before.msgIndex[answers[6].msgId := d] else before.msgIndex)
    && after.replyRefs == (if accepted && AllFine(answers, 7, 10) && !answers[10].Fails?
                           then before.replyRefs[d.draftId := d] else before.replyRefs)
    && after.drafts == (if accepted && AllFine(answers, 7, 11) && !answers[11].Fails?
                        then before.drafts[(d.businessId, d.draftId) := "sent"] else before.drafts)
    && after.cleanupDue == (if accepted && AllFine(answers, 7, 12) && !answers[12].Fails? && SiteOf(d) in before.cleanupDue
                            then before.cleanupDue[SiteOf(d) := now + 86_400] else before.cleanupDue)
  }

  // ----- any number of workers, interleaved ------------------------------------------

  datatype Sys = Sys(now: int, table: Table, workers: map<nat, Worker>)

  datatype Step =
    | Deliver(w: nat, env: Envelope)     // a first delivery, a redelivery or a duplicate
    | Act(w: nat, answer: Answer)
    | Crash(w: nat)
    | Tick(seconds: nat)
    | SweepRecord(key: string)           // DynamoDB's TTL
    | SetDraft(businessId: string, draftId: string, status: string)
    | PutWebsite(businessId: string, websiteId: string, due: int)

  function Next(s: Sys, step: Step): Sys {
    match step
    case Deliver(w, env) =>
      if w in s.workers then s else s.(workers := s.workers[w := NewWorker(env)])
    case Act(w, a) =>
      if w !in s.workers then s
      else
        var r := Advance(s.table, s.now, s.workers[w], a);
        s.(table := r.0, workers := s.workers[w := r.1])
    case Crash(w) =>
      if w !in s.workers then s else s.(workers := s.workers[w := Stop(s.workers[w], false)])
    case Tick(seconds) => s.(now := s.now + seconds)
    case SweepRecord(key) =>
      s.(table := s.table.(records := Idempotency.AfterSweep(s.table.records, key, s.now)))
    case SetDraft(b, d, status) => s.(table := s.table.(drafts := s.table.drafts[(b, d) := status]))
    case PutWebsite(b, w, due) => s.(table := s.table.(cleanupDue := s.table.cleanupDue[(b, w) := due]))
  }

  function Run(s: Sys, steps: seq<Step>): Sys {
    if steps == [] then s else Next(Run(s, steps[..|steps| - 1]), steps[|steps| - 1])
  }

  predicate Initial(s: Sys) {
    s.workers == map[] && s.table.markers == {} && s.table.records == map[]
  }

  // ----- safety -----------------------------------------------------------------------

  /** Everything a worker ever does, in the only order it can. */
  function Script(w: Worker): seq<Action> {
    var d := w.env.detail;
    [Started(w.startedAt), SawApproved(d.businessId, d.draftId), SawNotSuppressed(w.email),
     ClaimedMarker(MarkerOf(d).0, MarkerOf(d).1), CalledSend(d, w.email)]
  }

  function Progress(pc: Pc): nat
    requires !pc.Done?
  {
    match pc
    case Claiming => 0
    case LoadingDraft => 1
    case LoadingContact => 2
    case CheckingSuppression => 2
    case ClaimingMarker => 3
    case CheckingBudget => 4
    case Sending => 4
    case _ => 5
  }

  predicate WorkerOk(w: Worker) {
    && |w.trace| <= 5
    && w.trace == Script(w)[..|w.trace|]
    && (!w.pc.Done? ==> |w.trace| == Progress(w.pc))
    && (w.pc.CheckingSuppression? || |w.trace| >= 3 ==> !Blank(w.email))
  }

  predicate HoldsMarker(w: Worker) { |w.trace| >= 4 }
  predicate HasStarted(w: Worker) { |w.trace| >= 1 }

  ghost predicate MarkersOk(s: Sys) {
    && (forall w :: w in s.workers && HoldsMarker(s.workers[w]) ==> MarkerOf(s.workers[w].env.detail) in s.table.markers)
    && (forall v, w :: v in s.workers && w in s.workers && v != w
          && HoldsMarker(s.workers[v]) && HoldsMarker(s.workers[w])
          ==> MarkerOf(s.workers[v].env.detail) != MarkerOf(s.workers[w].env.detail))
  }

  /** A started event is behind its record, or old enough for the sweep. */
  predicate Covered(s: Sys, w: Worker) {
    var k := Idempotency.Key(CONSUMER, w.env.eventId);
    && w.startedAt <= s.now
    && ((k in s.table.records && s.table.records[k] >= w.startedAt + Idempotency.DEFAULT_TTL)
        || s.now >= w.startedAt + Idempotency.DEFAULT_TTL)
  }

  ghost predicate StartsOk(s: Sys) {
    && (forall w :: w in s.workers && HasStarted(s.workers[w]) ==> Covered(s, s.workers[w]))
    && (forall v, w :: v in s.workers && w in s.workers && v != w
          && HasStarted(s.workers[v]) && HasStarted(s.workers[w])
          && s.workers[v].env.eventId == s.workers[w].env.eventId
          ==> Apart(s.workers[v].startedAt, s.workers[w].startedAt))
  }

  predicate Apart(t: int, u: int) {
    t - u >= Idempotency.DEFAULT_TTL || u - t >= Idempotency.DEFAULT_TTL
  }

  ghost predicate Inv(s: Sys) {
    && (forall w :: w in s.workers ==> WorkerOk(s.workers[w]))
    && MarkersOk(s)
    && StartsOk(s)
  }

  /** What one remote call may change, as far as the invariant looks. */
  ghost predicate MarkerEffect(t: Table, w: Worker, t': Table, w': Worker) {
    && w'.env == w.env
    && t.markers <= t'.markers
    && (HoldsMarker(w') ==> HoldsMarker(w) || (MarkerOf(w.env.detail) !in t.markers && MarkerOf(w.env.detail) in t'.markers))
  }

  ghost predicate RecordEffect(t: Table, now: int, w: Worker, t': Table, w': Worker) {
    var k := Idempotency.Key(CONSUMER, w.env.eventId);
    && (forall key :: key in t.records ==> key in t'.records && t'.records[key] == t.records[key])
    && (HasStarted(w) ==> w'.startedAt == w.startedAt)
    && (HasStarted(w') && !HasStarted(w) ==>
          k !in t.records && k in t'.records && t'.records[k] == now + Idempotency.DEFAULT_TTL && w'.startedAt == now)
  }

  lemma {:induction false} AdvanceBeforeClaim(t: Table, now: int, w: Worker, a: Answer)
    requires WorkerOk(w) && !w.pc.Done? && |w.trace| < 3
    ensures WorkerOk(Advance(t, now, w, a).1) && w.trace <= Advance(t, now, w, a).1.trace
  {
    var r := Advance(t, now, w, a);
    assert r.1.trace == Script(r.1)[..|r.1.trace|];
  }

  lemma {:induction false} AdvanceClaim(t: Table, now: int, w: Worker, a: Answer)
    requires WorkerOk(w) && !w.pc.Done? && 3 <= |w.trace| < 5
    ensures WorkerOk(Advance(t, now, w, a).1) && w.trace <= Advance(t, now, w, a).1.trace
  {
    var r := Advance(t, now, w, a);
    assert r.1.trace == Script(r.1)[..|r.1.trace|];
  }

  lemma {:induction false} AdvanceRest(t: Table, now: int, w: Worker, a: Answer)
    requires WorkerOk(w) && (w.pc.Done? || |w.trace| == 5)
    ensures WorkerOk(Advance(t, now, w, a).1) && w.trace == Advance(t, now, w, a).1.trace
  {
  }

  lemma {:induction false} AdvanceFromClaim(t: Table, now: int, w: Worker, a: Answer)
    requires WorkerOk(w) && (w.pc.Done? || |w.trace| >= 3)
    ensures WorkerOk(Advance(t, now, w, a).1) && w.trace <= Advance(t, now, w, a).1.trace
  {
    if w.pc.Done? || |w.trace| == 5 {
      AdvanceRest(t, now, w, a);
    } else {
      AdvanceClaim(t, now, w, a);
    }
  }

  lemma {:induction false} AdvanceKeepsWorkerOk(t: Table, now: int, w: Worker, a: Answer)
    requires WorkerOk(w)
    ensures WorkerOk(Advance(t, now, w, a).1) && w.trace <= Advance(t, now, w, a).1.trace
  {
    if w.pc.Done? || |w.trace| >= 3 {
      AdvanceFromClaim(t, now, w, a);
    } else {
      AdvanceBeforeClaim(t, now, w, a);
    }
  }

  lemma {:induction false} ClaimMarkers(t: Table, now: int, w: Worker, a: Answer)
    requires WorkerOk(w) && w.pc.ClaimingMarker?
    ensures var r := Advance(t, now, w, a); MarkerEffect(t, w, r.0, r.1)
  {
    assert Progress(w.pc) == 3;
  }

  lemma {:induction false} OthersMarkers(t: Table, now: int, w: Worker, a: Answer)
    requires WorkerOk(w) && !w.pc.ClaimingMarker?
    ensures var r := Advance(t, now, w, a); MarkerEffect(t, w, r.0, r.1)
  {
  }

  lemma {:induction false} AdvanceMarkers(t: Table, now: int, w: Worker, a: Answer)
    requires WorkerOk(w)
    ensures var r := Advance(t, now, w, a); MarkerEffect(t, w, r.0, r.1)
  {
    if w.pc.ClaimingMarker? {
      ClaimMarkers(t, now, w, a);
    } else {
      OthersMarkers(t, now, w, a);
    }
  }

  lemma {:induction false} AdvanceRecords(t: Table, now: int, w: Worker, a: Answer)
    requires WorkerOk(w)
    ensures var r := Advance(t, now, w, a); RecordEffect(t, now, w, r.0, r.1)
  {
    if w.pc.Claiming? {
      assert Progress(w.pc) == 0;
    }
  }

  lemma {:induction false} ActKeepsInv(s: Sys, id: nat, t: Table, w: Worker)
    requires Inv(s) && id in s.workers && WorkerOk(w)
    requires MarkerEffect(s.table, s.workers[id], t, w) && RecordEffect(s.table, s.now, s.workers[id], t, w)
    ensures Inv(s.(table := t, workers := s.workers[id := w]))
  {
    var r := s.(table := t, workers := s.workers[id := w]);
    assert MarkersOk(r) by {
      forall v | v in s.workers && v != id && HoldsMarker(s.workers[v]) && HoldsMarker(w)
        ensures MarkerOf(s.workers[v].env.detail) != MarkerOf(w.env.detail)
      {
      }
    }
    assert StartsOk(r) by {
      forall v | v in r.workers && HasStarted(r.workers[v])
        ensures Covered(r, r.workers[v])
      {
        if v != id {
          assert Covered(s, s.workers[v]);
        } else if HasStarted(s.workers[id]) {
          assert Covered(s, s.workers[id]);
        }
      }
      forall v | v in s.workers && v != id && HasStarted(s.workers[v]) && HasStarted(w)
                 && s.workers[v].env.eventId == w.env.eventId
        ensures Apart(s.workers[v].startedAt, w.startedAt)
      {
        assert Covered(s, s.workers[v]);
      }
    }
  }

  lemma {:induction false} EnvironmentKeepsInv(s: Sys, r: Sys)
    requires Inv(s) && r.workers == s.workers && r.table.markers == s.table.markers && r.now >= s.now
    requires forall k :: k in s.table.records ==>
               s.table.records[k] <= r.now || (k in r.table.records && r.table.records[k] == s.table.records[k])
    ensures Inv(r)
  {
    forall w | w in r.workers && HasStarted(r.workers[w])
      ensures Covered(r, r.workers[w])
    {
      assert Covered(s, s.workers[w]);
    }
  }

  lemma {:induction false} ActStep(s: Sys, w: nat, a: Answer)
    requires Inv(s) && w in s.workers
    ensures Inv(Next(s, Act(w, a)))
  {
    AdvanceKeepsWorkerOk(s.table, s.now, s.workers[w], a);
    AdvanceMarkers(s.table, s.now, s.workers[w], a);
    AdvanceRecords(s.table, s.now, s.workers[w], a);
    var r := Advance(s.table, s.now, s.workers[w], a);
    ActKeepsInv(s, w, r.0, r.1);
  }

  lemma {:induction false} NewWorkerStarts(s: Sys, w: nat, env: Envelope)
    requires StartsOk(s) && w !in s.workers
    ensures StartsOk(s.(workers := s.workers[w := NewWorker(env)]))
  {
    var r := s.(workers := s.workers[w := NewWorker(env)]);
    assert !HasStarted(r.workers[w]);
    forall v | v in r.workers && HasStarted(r.workers[v])
      ensures Covered(r, r.workers[v])
    {
      assert Covered(s, s.workers[v]);
    }
  }

  lemma {:induction false} NewWorkerMarkers(s: Sys, w: nat, env: Envelope)
    requires MarkersOk(s) && w !in s.workers
    ensures MarkersOk(s.(workers := s.workers[w := NewWorker(env)]))
  {
    assert !HoldsMarker(NewWorker(env));
  }

  lemma {:induction false} NewWorkerKeepsInv(s: Sys, w: nat, env: Envelope)
    requires Inv(s) && w !in s.workers
    ensures Inv(s.(workers := s.workers[w := NewWorker(env)]))
  {
    NewWorkerStarts(s, w, env);
    NewWorkerMarkers(s, w, env);
    assert WorkerOk(NewWorker(env));
  }

  lemma {:induction false} InvStep(s: Sys, step: Step)
    requires Inv(s)
    ensures Inv(Next(s, step))
  {
    match step {
      case Deliver(w, env) =>
        if w !in s.workers {
          NewWorkerKeepsInv(s, w, env);
        }
      case Act(w, a) =>
        if w in s.workers {
          ActStep(s, w, a);
        }
      case Crash(w) =>
        if w in s.workers {
          ActKeepsInv(s, w, s.table, Stop(s.workers[w], false));
        }
      case _ =>
        EnvironmentKeepsInv(s, Next(s, step));
    }
  }

  lemma {:induction false} InvRun(s: Sys, steps: seq<Step>)
    requires Inv(s)
    ensures Inv(Run(s, steps))
  {
    if steps != [] {
      InvRun(s, steps[..|steps| - 1]);
      InvStep(Run(s, steps[..|steps| - 1]), steps[|steps| - 1]);
    }
  }

  /** Sends of one (business, contact, website), over all workers of a run. */
  predicate SendsFor(w: Worker, i: nat, businessId: string, contactId: string, websiteId: string) {
    && i < |w.trace| && w.trace[i].CalledSend?
    && w.trace[i].detail.businessId == businessId
    && w.trace[i].detail.contactId == contactId
    && w.trace[i].detail.websiteId == websiteId
  }

  /** In every run SES is called at most once per (business, contact, website). */
  lemma {:induction false} AtMostOneSend(s: Sys, steps: seq<Step>, v: nat, w: nat, i: nat, j: nat,
                                         businessId: string, contactId: string, websiteId: string)
    requires Initial(s)
    requires v in Run(s, steps).workers && w in Run(s, steps).workers
    requires SendsFor(Run(s, steps).workers[v], i, businessId, contactId, websiteId)
    requires SendsFor(Run(s, steps).workers[w], j, businessId, contactId, websiteId)
    ensures v == w && i == j
  {
    InvRun(s, steps);
    var r := Run(s, steps);
    assert r.workers[v].trace[i] == Script(r.workers[v])[i];
    assert r.workers[w].trace[j] == Script(r.workers[w])[j];
  }

  /** Every send follows that worker's approved read, not-suppressed answer and own claim. */
  lemma {:induction false} SendFollowsItsGuards(s: Sys, steps: seq<Step>, w: nat, i: nat)
    requires Initial(s) && w in Run(s, steps).workers
    requires i < |Run(s, steps).workers[w].trace| && Run(s, steps).workers[w].trace[i].CalledSend?
    ensures var t, d := Run(s, steps).workers[w].trace, Run(s, steps).workers[w].env.detail;
            && i == 4
            && t[1] == SawApproved(d.businessId, d.draftId)
            && t[2] == SawNotSuppressed(t[4].email)
            && t[3] == ClaimedMarker(d.businessId, SendDedupKey(d.contactId, d.websiteId))
            && t[4].detail == d && !Blank(t[4].email)
  {
    InvRun(s, steps);
  }

  // ----- what the answers were -----------------------------------------------------------

  /** The questions a worker asks before it sends. */
  datatype Guard = DraftGuard | ContactGuard(email: string) | SuppressionGuard | MarkerGuard | BudgetGuard

  function AskedAt(g: Guard): Pc {
    match g
    case DraftGuard => LoadingDraft
    case ContactGuard(_) => LoadingContact
    case SuppressionGuard => CheckingSuppression
    case MarkerGuard => ClaimingMarker
    case BudgetGuard => CheckingBudget
  }

  /** The answer that lets the mail go out. */
  predicate SaysYes(g: Guard, t: Table, d: Detail, a: Answer) {
    match g
    case DraftGuard => !a.Fails? && !a.Lost? && ShowsApproved(t.drafts, d, a)
    case ContactGuard(email) => a == Contact(Some(email)) && !Blank(email)
    case SuppressionGuard => a == Suppressed(false)
    case MarkerGuard =>
      !a.Fails? && !a.Lost? && (d.businessId, Sha256(d.contactId + "|" + d.websiteId)) !in t.markers
    case BudgetGuard => a == WithinBudget(true)
  }

  /** At step i the worker asked and was told yes. */
  predicate ToldYes(s: Sys, steps: seq<Step>, i: nat, w: nat, g: Guard)
    requires i < |steps|
  {
    var r := Run(s, steps[..i]);
    && steps[i].Act? && steps[i].w == w && w in r.workers && r.workers[w].pc == AskedAt(g)
    && SaysYes(g, r.table, r.workers[w].env.detail, steps[i].answer)
  }

  ghost predicate WasToldYes(s: Sys, steps: seq<Step>, w: nat, g: Guard) {
    exists i :: 0 <= i < |steps| && ToldYes(s, steps, i, w, g)
  }

  /** The worker is past the question. */
  predicate Past(w: Worker, g: Guard) {
    match g
    case DraftGuard => |w.trace| >= 2
    case ContactGuard(email) => (w.pc.CheckingSuppression? || |w.trace| >= 3) && w.email == email
    case SuppressionGuard => |w.trace| >= 3
    case MarkerGuard => |w.trace| >= 4
    case BudgetGuard => w.pc.Sending? || |w.trace| == 5
  }

  lemma {:induction false} PastBeforeMarker(t: Table, now: int, w: Worker, a: Answer, g: Guard)
    requires WorkerOk(w) && !w.pc.Done? && |w.trace| < 3 && Past(Advance(t, now, w, a).1, g)
    ensures Past(w, g) || (w.pc == AskedAt(g) && SaysYes(g, t, w.env.detail, a))
  {
  }

  lemma {:induction false} PastFromMarker(t: Table, now: int, w: Worker, a: Answer, g: Guard)
    requires WorkerOk(w) && (w.pc.Done? || |w.trace| >= 3) && Past(Advance(t, now, w, a).1, g)
    ensures Past(w, g) || (w.pc == AskedAt(g) && SaysYes(g, t, w.env.detail, a))
  {
  }

  lemma {:induction false} ToldYesStays(s: Sys, steps: seq<Step>, step: Step, w: nat, g: Guard)
    requires WasToldYes(s, steps, w, g)
    ensures WasToldYes(s, steps + [step], w, g)
  {
    var i :| 0 <= i < |steps| && ToldYes(s, steps, i, w, g);
    var all := steps + [step];
    assert all[..i] == steps[..i] && all[i] == steps[i];
    assert ToldYes(s, all, i, w, g);
  }

  lemma {:induction false} PastWasTold(s: Sys, steps: seq<Step>, w: nat, g: Guard)
    requires Initial(s) && w in Run(s, steps).workers && Past(Run(s, steps).workers[w], g)
    ensures WasToldYes(s, steps, w, g)
  {
    if steps != [] {
      var before, step := steps[..|steps| - 1], steps[|steps| - 1];
      var r := Run(s, before);
      assert steps == before + [step];
      InvRun(s, before);
      if w in r.workers && Past(r.workers[w], g) {
        PastWasTold(s, before, w, g);
        ToldYesStays(s, before, step, w, g);
      } else {
        PastNow(r, step, w, g);
        assert ToldYes(s, steps, |before|, w, g);
      }
    }
  }

  /** A worker gets past a question by being told yes. */
  lemma {:induction false} PastNow(r: Sys, step: Step, w: nat, g: Guard)
    requires Inv(r) && w in Next(r, step).workers && Past(Next(r, step).workers[w], g)
    requires !(w in r.workers && Past(r.workers[w], g))
    ensures step.Act? && step.w == w && w in r.workers && r.workers[w].pc == AskedAt(g)
    ensures SaysYes(g, r.table, r.workers[w].env.detail, step.answer)
  {
    if step.Act? && step.w == w && w in r.workers {
      assert WorkerOk(r.workers[w]);
      if r.workers[w].pc.Done? || |r.workers[w].trace| >= 3 {
        PastFromMarker(r.table, r.now, r.workers[w], step.answer, g);
      } else {
        PastBeforeMarker(r.table, r.now, r.workers[w], step.answer, g);
      }
    }
  }

  /** The step after these is the worker's call of SES, with this address. */
  predicate SendsNext(s: Sys, front: seq<Step>, step: Step, w: nat, email: string) {
    var r := Run(s, front);
    step.Act? && step.w == w && w in r.workers && r.workers[w].pc == Sending && r.workers[w].email == email
  }

  /** The worker was told yes to each question, the address being the contact's own. */
  ghost predicate AllToldYes(s: Sys, front: seq<Step>, w: nat, email: string) {
    && WasToldYes(s, front, w, DraftGuard)
    && WasToldYes(s, front, w, ContactGuard(email))
    && WasToldYes(s, front, w, SuppressionGuard)
    && WasToldYes(s, front, w, MarkerGuard)
    && WasToldYes(s, front, w, BudgetGuard)
  }

  /** One of the first n steps is that call, and all yeses come before it. */
  ghost predicate SentAfterEveryYes(s: Sys, steps: seq<Step>, n: nat, w: nat, email: string)
    requires n <= |steps|
  {
    exists j :: 0 <= j < n && SendsNext(s, steps[..j], steps[j], w, email) && AllToldYes(s, steps[..j], w, email)
  }

  lemma {:induction false} RunNext(s: Sys, steps: seq<Step>, n: nat)
    requires n < |steps|
    ensures Run(s, steps[..n + 1]) == Next(Run(s, steps[..n]), steps[n])
  {
    assert steps[..n + 1][..n] == steps[..n];
  }

  lemma {:induction false} SentBy(s: Sys, steps: seq<Step>, n: nat, w: nat)
    requires n <= |steps| && Initial(s) && w in Run(s, steps[..n]).workers && HasSent(Run(s, steps[..n]).workers[w])
    ensures SentAfterEveryYes(s, steps, n, w, Run(s, steps[..n]).workers[w].email)
  {
    if n > 0 {
      var r := Run(s, steps[..n - 1]);
      RunNext(s, steps, n - 1);
      InvRun(s, steps[..n - 1]);
      if w in r.workers && HasSent(r.workers[w]) {
        SentBy(s, steps, n - 1, w);
        SentKeepsEmail(r, steps[n - 1], w);
      } else {
        SendsNow(r, steps[n - 1], w);
        ReadyWasTold(s, steps[..n - 1], w);
      }
    }
  }

  /**
   * In every run each send comes after the worker's own reads: an approved draft, the contact's
   * address, an address not suppressed, a marker nobody had claimed, and a budget that allows it.
   */
  lemma {:induction false} SendNeedsEveryYes(s: Sys, steps: seq<Step>, w: nat)
    requires Initial(s) && w in Run(s, steps).workers && HasSent(Run(s, steps).workers[w])
    ensures SentAfterEveryYes(s, steps, |steps|, w, Run(s, steps).workers[w].email)
  {
    assert steps[..|steps|] == steps;
    SentBy(s, steps, |steps|, w);
  }

  lemma {:induction false} ReadyWasTold(s: Sys, steps: seq<Step>, w: nat)
    requires Initial(s) && w in Run(s, steps).workers
    requires Run(s, steps).workers[w].pc == Sending && |Run(s, steps).workers[w].trace| == 4
    ensures AllToldYes(s, steps, w, Run(s, steps).workers[w].email)
  {
    PastWasTold(s, steps, w, DraftGuard);
    PastWasTold(s, steps, w, ContactGuard(Run(s, steps).workers[w].email));
    PastWasTold(s, steps, w, SuppressionGuard);
    PastWasTold(s, steps, w, MarkerGuard);
    PastWasTold(s, steps, w, BudgetGuard);
  }

  lemma {:induction false} SentKeepsEmail(before: Sys, step: Step, w: nat)
    requires Inv(before) && w in before.workers && HasSent(before.workers[w])
    ensures w in Next(before, step).workers && Next(before, step).workers[w].email == before.workers[w].email
  {
    assert WorkerOk(before.workers[w]);
    if step.Act? && step.w == w {
      AfterSendKeepsEmail(before.table, before.now, before.workers[w], step.answer);
    }
  }

  lemma {:induction false} AfterSendKeepsEmail(t: Table, now: int, w: Worker, a: Answer)
    requires WorkerOk(w) && HasSent(w)
    ensures Advance(t, now, w, a).1.email == w.email
  {
  }

  lemma {:induction false} SendsNow(before: Sys, step: Step, w: nat)
    requires Inv(before) && !(w in before.workers && HasSent(before.workers[w]))
    requires w in Next(before, step).workers && HasSent(Next(before, step).workers[w])
    ensures step.Act? && step.w == w && w in before.workers && before.workers[w].pc == Sending
    ensures |before.workers[w].trace| == 4 && Next(before, step).workers[w].email == before.workers[w].email
  {
    if step.Act? && step.w == w && w in before.workers {
      assert WorkerOk(before.workers[w]);
      AdvanceSends(before.table, before.now, before.workers[w], step.answer);
    }
  }

  /** The wrapper's own promise: one event's handler runs start at least a record's lifetime apart. */
  lemma {:induction false} HandlerRunsApart(s: Sys, steps: seq<Step>, v: nat, w: nat)
    requires Initial(s)
    requires v in Run(s, steps).workers && w in Run(s, steps).workers && v != w
    requires HasStarted(Run(s, steps).workers[v]) && HasStarted(Run(s, steps).workers[w])
    requires Run(s, steps).workers[v].env.eventId == Run(s, steps).workers[w].env.eventId
    ensures Apart(Run(s, steps).workers[v].startedAt, Run(s, steps).workers[w].startedAt)
  {
    InvRun(s, steps);
  }

  // ----- at most once, not exactly once ---------------------------------------------

  predicate HasSent(w: Worker) { |w.trace| == 5 }

  /** The marker's holder is alive between its claim and its send. */
  predicate AboutToSend(w: Worker, marker: (string, Digest)) {
    MarkerOf(w.env.detail) == marker && (w.pc.CheckingBudget? || w.pc.Sending?)
  }

  ghost predicate CanStillSend(s: Sys, marker: (string, Digest)) {
    marker !in s.table.markers || exists w :: w in s.workers && AboutToSend(s.workers[w], marker)
  }

  /** `r` holds a send for the marker that `s` did not. */
  ghost predicate SentBetween(s: Sys, r: Sys, marker: (string, Digest)) {
    exists w :: w in r.workers && HasSent(r.workers[w]) && MarkerOf(r.workers[w].env.detail) == marker
                && !(w in s.workers && HasSent(s.workers[w]))
  }

  lemma {:induction false} AdvanceSends(t: Table, now: int, w: Worker, a: Answer)
    requires WorkerOk(w)
    ensures var w' := Advance(t, now, w, a).1;
            && (HasSent(w') ==> HasSent(w) || w.pc.Sending?)
            && (w'.pc.Sending? ==> w.pc.CheckingBudget?)
            && (w'.pc.CheckingBudget? ==> MarkerOf(w.env.detail) !in t.markers)
  {
  }

  lemma {:induction false} QuietAct(s: Sys, before: Sys, id: nat, t: Table, w: Worker, marker: (string, Digest))
    requires !CanStillSend(before, marker) && !SentBetween(s, before, marker) && id in before.workers
    requires MarkerEffect(before.table, before.workers[id], t, w)
    requires HasSent(w) ==> HasSent(before.workers[id]) || before.workers[id].pc.Sending?
    requires w.pc.Sending? ==> before.workers[id].pc.CheckingBudget?
    requires w.pc.CheckingBudget? ==> MarkerOf(w.env.detail) !in before.table.markers
    ensures var after := before.(table := t, workers := before.workers[id := w]);
            !CanStillSend(after, marker) && !SentBetween(s, after, marker)
  {
    var after := before.(table := t, workers := before.workers[id := w]);
    assert !AboutToSend(before.workers[id], marker);
    forall v | v in after.workers && HasSent(after.workers[v]) && MarkerOf(after.workers[v].env.detail) == marker
      ensures v in s.workers && HasSent(s.workers[v])
    {
      assert v in before.workers && HasSent(before.workers[v]);
    }
  }

  lemma {:induction false} QuietStep(s: Sys, before: Sys, step: Step, marker: (string, Digest))
    requires Inv(before) && !CanStillSend(before, marker) && !SentBetween(s, before, marker)
    ensures !CanStillSend(Next(before, step), marker) && !SentBetween(s, Next(before, step), marker)
  {
    match step {
      case Act(id, a) =>
        if id in before.workers {
          QuietWorker(s, before, id, a, marker);
        }
      case Crash(id) =>
        if id in before.workers {
          QuietAct(s, before, id, before.table, Stop(before.workers[id], false), marker);
        }
      case Deliver(id, env) =>
        if id !in before.workers {
          var after := Next(before, step);
          assert after.workers == before.workers[id := NewWorker(env)] && !HasSent(NewWorker(env));
          assert forall v :: v in before.workers ==> after.workers[v] == before.workers[v];
        }
      case _ =>
    }
  }

  lemma {:induction false} QuietWorker(s: Sys, before: Sys, id: nat, a: Answer, marker: (string, Digest))
    requires Inv(before) && !CanStillSend(before, marker) && !SentBetween(s, before, marker) && id in before.workers
    ensures !CanStillSend(Next(before, Act(id, a)), marker) && !SentBetween(s, Next(before, Act(id, a)), marker)
  {
    var r := Advance(before.table, before.now, before.workers[id], a);
    AdvanceSends(before.table, before.now, before.workers[id], a);
    AdvanceMarkers(before.table, before.now, before.workers[id], a);
    QuietAct(s, before, id, r.0, r.1, marker);
  }

  lemma {:induction false} SpentMarkerStaysQuiet(s: Sys, steps: seq<Step>, marker: (string, Digest))
    requires Inv(s) && !CanStillSend(s, marker)
    ensures !CanStillSend(Run(s, steps), marker) && !SentBetween(s, Run(s, steps), marker)
  {
    if steps != [] {
      var before, step := Run(s, steps[..|steps| - 1]), steps[|steps| - 1];
      SpentMarkerStaysQuiet(s, steps[..|steps| - 1], marker);
      InvRun(s, steps[..|steps| - 1]);
      QuietStep(s, before, step, marker);
    }
  }

  lemma {:induction false} RunOnto(s: Sys, steps: seq<Step>, step: Step)
    ensures Run(s, steps + [step]) == Next(Run(s, steps), step)
  {
    assert (steps + [step])[..|steps + [step]| - 1] == steps;
  }

  lemma {:induction false} SenderSends(s: Sys, w: nat)
    requires Inv(s) && w in s.workers && s.workers[w].pc == Sending
    ensures SentBetween(s, Next(s, Act(w, Fails)), MarkerOf(s.workers[w].env.detail))
  {
    assert WorkerOk(s.workers[w]) && Progress(Sending) == 4;
    assert HasSent(Next(s, Act(w, Fails)).workers[w]);
  }

  lemma {:induction false} HolderCanSend(s: Sys, w: nat, marker: (string, Digest)) returns (steps: seq<Step>)
    requires Inv(s) && w in s.workers && AboutToSend(s.workers[w], marker)
    ensures SentBetween(s, Run(s, steps), marker)
  {
    steps := [];
    if s.workers[w].pc.CheckingBudget? {
      steps := [Act(w, WithinBudget(true))];
      RunOnto(s, [], Act(w, WithinBudget(true)));
      assert [] + steps == steps;
      InvRun(s, steps);
    }
    var mid := Run(s, steps);
    SenderSends(mid, w);
    RunOnto(s, steps, Act(w, Fails));
    NewLaterIsNew(s, steps, Next(mid, Act(w, Fails)), marker);
    steps := steps + [Act(w, Fails)];
  }

  lemma {:induction false} ContactPasses(s: Sys, w: nat, email: string)
    requires w in s.workers && s.workers[w].pc == LoadingContact && !Blank(email)
    ensures var r := Next(Next(s, Act(w, Contact(Some(email)))), Act(w, Suppressed(false)));
            w in r.workers && r.workers[w].pc == ClaimingMarker && r.workers[w].env == s.workers[w].env && r.table == s.table
  {
  }

  lemma {:induction false} FreeMarkerIsClaimed(s: Sys, w: nat)
    requires w in s.workers && s.workers[w].pc == ClaimingMarker && MarkerOf(s.workers[w].env.detail) !in s.table.markers
    ensures var r := Next(s, Act(w, Fine));
            && w in r.workers && r.workers[w].pc == CheckingBudget && r.workers[w].env == s.workers[w].env
            && r.table.replyRefs == s.table.replyRefs
  {
  }

  /** A worker told to go on from its contact read claims the marker if it is free. */
  lemma {:induction false} ContactReachesMarker(s: Sys, w: nat) returns (steps: seq<Step>)
    requires w in s.workers && s.workers[w].pc == LoadingContact && MarkerOf(s.workers[w].env.detail) !in s.table.markers
    ensures var r := Run(s, steps);
            && w in r.workers && r.workers[w].env == s.workers[w].env && r.workers[w].pc == CheckingBudget
            && r.table.replyRefs == s.table.replyRefs
  {
    var email := "a@b";
    assert !IsSpace(email[0]) && !Blank(email);
    var a1, a2, a3 := Act(w, Contact(Some(email))), Act(w, Suppressed(false)), Act(w, Fine);
    ContactPasses(s, w, email);
    RunOfTwo(s, a1, a2);
    FreeMarkerIsClaimed(Run(s, [a1, a2]), w);
    RunOnto(s, [a1, a2], a3);
    steps := [a1, a2] + [a3];
  }

  lemma {:induction false} RunOfTwo(s: Sys, a: Step, b: Step)
    ensures Run(s, [a, b]) == Next(Next(s, a), b)
  {
    RunOnto(s, [], a);
    RunOnto(s, [a], b);
    assert [] + [a] == [a] && [a] + [b] == [a, b];
  }

  lemma {:induction false} DeliveryReachesContact(s: Sys, w: nat, env: Envelope) returns (steps: seq<Step>)
    requires w !in s.workers && env.eventId != "" && !Incomplete(env.detail)
    requires Idempotency.Key(CONSUMER, env.eventId) !in s.table.records
    ensures var r := Run(s, steps);
            w in r.workers && r.workers[w].pc == LoadingContact && r.workers[w].env == env
            && r.table.markers == s.table.markers && r.table.replyRefs == s.table.replyRefs
  {
    var d := env.detail;
    var approve, deliver, fine := SetDraft(d.businessId, d.draftId, "approved"), Deliver(w, env), Act(w, Fine);
    var s2 := Next(Next(s, approve), deliver);
    assert s2.workers[w] == NewWorker(env) && s2.table.records == s.table.records;
    assert s2.table.drafts[(d.businessId, d.draftId)] == "approved";
    var s3 := Next(s2, fine);
    assert s3.workers[w].pc == LoadingDraft && s3.table.drafts == s2.table.drafts;
    RunOfTwo(s, approve, deliver);
    RunOfTwo(s2, fine, fine);
    RunConcat(s, [approve, deliver], [fine, fine]);
    steps := [approve, deliver] + [fine, fine];
  }

  ghost predicate SendAhead(s: Sys, marker: (string, Digest)) {
    exists steps :: SentBetween(s, Run(s, steps), marker)
  }

  lemma {:induction false} NewLaterIsNew(s: Sys, steps: seq<Step>, r: Sys, marker: (string, Digest))
    requires Inv(s) && SentBetween(Run(s, steps), r, marker)
    ensures SentBetween(s, r, marker)
  {
    var mid := Run(s, steps);
    var v :| v in r.workers && HasSent(r.workers[v]) && MarkerOf(r.workers[v].env.detail) == marker
             && !(v in mid.workers && HasSent(mid.workers[v]));
    if v in s.workers && HasSent(s.workers[v]) {
      SendsPersist(s, steps, v);
    }
  }

  lemma {:induction false} FreshDeliverySends(s: Sys, w: nat, env: Envelope)
    requires Inv(s) && w !in s.workers && env.eventId != "" && !Incomplete(env.detail)
    requires Idempotency.Key(CONSUMER, env.eventId) !in s.table.records
    requires MarkerOf(env.detail) !in s.table.markers
    ensures SendAhead(s, MarkerOf(env.detail))
  {
    var marker := MarkerOf(env.detail);
    var read := DeliveryReachesContact(s, w, env);
    var claim := ContactReachesMarker(Run(s, read), w);
    RunConcat(s, read, claim);
    InvRun(s, read + claim);
    var send := HolderCanSend(Run(s, read + claim), w, marker);
    RunConcat(s, read + claim, send);
    NewLaterIsNew(s, read + claim, Run(s, read + claim + send), marker);
  }

  /**
   * Exactly which mails can still go out: a state admits a further send for a marker if and
   * only if the marker is unclaimed or its holder still lives between claim and send. So a
   * worker that dies in that window loses the mail for good.
   */
  lemma {:induction false} StillSendableExactly(s: Sys, w: nat, env: Envelope)
    requires Inv(s) && w !in s.workers && env.eventId != "" && !Incomplete(env.detail)
    requires Idempotency.Key(CONSUMER, env.eventId) !in s.table.records
    ensures CanStillSend(s, MarkerOf(env.detail)) <==> SendAhead(s, MarkerOf(env.detail))
  {
    var marker := MarkerOf(env.detail);
    if marker !in s.table.markers {
      FreshDeliverySends(s, w, env);
    } else if CanStillSend(s, marker) {
      var v :| v in s.workers && AboutToSend(s.workers[v], marker);
      var steps := HolderCanSend(s, v, marker);
    } else if SendAhead(s, marker) {
      var steps :| SentBetween(s, Run(s, steps), marker);
      SpentMarkerStaysQuiet(s, steps, marker);
    }
  }

  lemma {:induction false} RunConcat(s: Sys, a: seq<Step>, b: seq<Step>)
    ensures Run(s, a + b) == Run(Run(s, a), b)
  {
    if b == [] {
      assert a + b == a;
    } else {
      RunConcat(s, a, b[..|b| - 1]);
      assert (a + b)[..|a + b| - 1] == a + b[..|b| - 1];
    }
  }

  lemma {:induction false} SentWorkerActs(t: Table, now: int, w: Worker, a: Answer)
    requires WorkerOk(w) && HasSent(w)
    ensures HasSent(Advance(t, now, w, a).1)
  {
    AdvanceKeepsWorkerOk(t, now, w, a);
  }

  lemma {:induction false} SentStays(s: Sys, step: Step, w: nat)
    requires w in s.workers && WorkerOk(s.workers[w]) && HasSent(s.workers[w])
    ensures w in Next(s, step).workers && HasSent(Next(s, step).workers[w])
  {
    if step.Act? && step.w == w {
      SentWorkerActs(s.table, s.now, s.workers[w], step.answer);
    }
  }

  lemma {:induction false} SendsPersist(s: Sys, steps: seq<Step>, w: nat)
    requires Inv(s) && w in s.workers && HasSent(s.workers[w])
    ensures w in Run(s, steps).workers && HasSent(Run(s, steps).workers[w])
  {
    if steps != [] {
      SendsPersist(s, steps[..|steps| - 1], w);
      InvRun(s, steps[..|steps| - 1]);
      SentStays(Run(s, steps[..|steps| - 1]), steps[|steps| - 1], w);
    }
  }

  // ----- the dedup key ------------------------------------------------------------------

  /** With contact ids free of '|', different pairs never share a marker, whatever the website ids. */
  lemma {:induction false} DedupKeyInjective(c1: string, w1: string, c2: string, w2: string)
    requires '|' !in c1 && '|' !in c2
    ensures SendDedupKey(c1, w1) == SendDedupKey(c2, w2) <==> c1 == c2 && w1 == w2
  {
    if SendDedupKey(c1, w1) == SendDedupKey(c2, w2) {
      var k1, k2 := c1 + ['|'] + w1, c2 + ['|'] + w2;
      assert k1 == k2;
      FirstSplit(c1, '|', w1);
      FirstSplit(c2, '|', w2);
      assert c1 == k1[..|c1|] && c2 == k2[..|c2|];
      assert w1 == k1[|c1| + 1..] && w2 == k2[|c2| + 1..];
    }
  }

  /** `c1|` starts `c2|`, or the other way round. */
  predicate Nested(c1: string, c2: string) {
    c1 + "|" <= c2 + "|" || c2 + "|" <= c1 + "|"
  }

  /** The website ids that make the keys of nested contact ids meet. */
  lemma {:induction false} NestedCollide(c1: string, c2: string)
    requires c1 + "|" <= c2 + "|"
    ensures SendDedupKey(c1, (c2 + "|")[|c1| + 1..]) == SendDedupKey(c2, "")
  {
    assert c1 + "|" + (c2 + "|")[|c1| + 1..] == c2 + "|" + "";
  }

  /** Two contacts can share a marker for some websites exactly when their ids are nested. */
  lemma {:induction false} DedupKeyCollidesExactly(c1: string, c2: string)
    requires c1 != c2
    ensures (exists w1, w2 :: SendDedupKey(c1, w1) == SendDedupKey(c2, w2)) <==> Nested(c1, c2)
  {
    if c1 + "|" <= c2 + "|" {
      NestedCollide(c1, c2);
    } else if c2 + "|" <= c1 + "|" {
      NestedCollide(c2, c1);
    } else if w1, w2 :| SendDedupKey(c1, w1) == SendDedupKey(c2, w2) {
      SharedStart(c1, w1, c2, w2);
    }
  }

  lemma {:induction false} SharedStart(c1: string, w1: string, c2: string, w2: string)
    requires c1 + "|" + w1 == c2 + "|" + w2
    ensures Nested(c1, c2)
  {
    var k := c1 + "|" + w1;
    assert c1 + "|" == k[..|c1| + 1] && c2 + "|" == k[..|c2| + 1];
  }

  lemma DedupKeyCollides()
    ensures SendDedupKey("a|b", "c") == SendDedupKey("a", "b|c")
  {
    assert "a|b" + "|" + "c" == "a" + "|" + "b|c";
  }

  // ----- the reply index ------------------------------------------------------------------

  /** Draft ids are unique across businesses: `owner` names each draft's business. */
  predicate Owned(steps: seq<Step>, owner: map<string, string>) {
    forall i :: 0 <= i < |steps| && steps[i].Deliver? ==>
      var d := steps[i].env.detail; d.draftId in owner && owner[d.draftId] == d.businessId
  }

  predicate IndexedReply(w: Worker) {
    w.pc.MarkingDraft? || w.pc.StampingCleanup? || w.pc.Publishing? || (w.pc == Done(true) && HasSent(w))
  }

  ghost predicate RefsOk(s: Sys, owner: map<string, string>) {
    && (forall w :: w in s.workers ==> WorkerOk(s.workers[w]))
    && (forall w :: w in s.workers ==>
          var d := s.workers[w].env.detail; d.draftId in owner && owner[d.draftId] == d.businessId)
    && (forall k :: k in s.table.replyRefs ==>
          k in owner && s.table.replyRefs[k].draftId == k && s.table.replyRefs[k].businessId == owner[k])
    && (forall w :: w in s.workers && IndexedReply(s.workers[w]) ==>
          s.workers[w].env.detail.draftId in s.table.replyRefs)
  }

  /** What one call does to the reply index. */
  ghost predicate RefsEffect(t: Table, w: Worker, t': Table, w': Worker) {
    && (t'.replyRefs == t.replyRefs || t'.replyRefs == t.replyRefs[w.env.detail.draftId := w.env.detail])
    && (IndexedReply(w') ==> IndexedReply(w) || w.env.detail.draftId in t'.replyRefs)
    && w'.env == w.env
  }

  lemma {:induction false} RefsBeforeSend(t: Table, now: int, w: Worker, a: Answer)
    requires WorkerOk(w) && !w.pc.Done? && |w.trace| < 4
    ensures RefsEffect(t, w, Advance(t, now, w, a).0, Advance(t, now, w, a).1)
  {
  }

  lemma {:induction false} RefsFromSend(t: Table, now: int, w: Worker, a: Answer)
    requires WorkerOk(w) && (w.pc.Done? || |w.trace| >= 4)
    ensures RefsEffect(t, w, Advance(t, now, w, a).0, Advance(t, now, w, a).1)
  {
  }

  lemma {:induction false} AdvanceRefs(t: Table, now: int, w: Worker, a: Answer)
    requires WorkerOk(w)
    ensures RefsEffect(t, w, Advance(t, now, w, a).0, Advance(t, now, w, a).1)
  {
    if w.pc.Done? || |w.trace| >= 4 {
      RefsFromSend(t, now, w, a);
    } else {
      RefsBeforeSend(t, now, w, a);
    }
  }

  lemma {:induction false} RefsAct(s: Sys, id: nat, t: Table, w: Worker, owner: map<string, string>)
    requires RefsOk(s, owner) && id in s.workers && WorkerOk(w) && w.env == s.workers[id].env
    requires var d := w.env.detail;
             t.replyRefs == s.table.replyRefs || t.replyRefs == s.table.replyRefs[d.draftId := d]
    requires IndexedReply(w) ==> IndexedReply(s.workers[id]) || w.env.detail.draftId in t.replyRefs
    ensures RefsOk(s.(table := t, workers := s.workers[id := w]), owner)
  {
  }

  lemma {:induction false} RefsStep(s: Sys, step: Step, owner: map<string, string>)
    requires RefsOk(s, owner) && Owned([step], owner)
    ensures RefsOk(Next(s, step), owner)
  {
    match step {
      case Act(id, a) =>
        if id in s.workers {
          var r := Advance(s.table, s.now, s.workers[id], a);
          AdvanceKeepsWorkerOk(s.table, s.now, s.workers[id], a);
          AdvanceRefs(s.table, s.now, s.workers[id], a);
          RefsAct(s, id, r.0, r.1, owner);
        }
      case Crash(id) =>
        if id in s.workers {
          RefsAct(s, id, s.table, Stop(s.workers[id], false), owner);
        }
      case Deliver(w, env) =>
        assert [step][0] == step;
      case _ =>
    }
  }

  /** Once a worker has got past its index write, the draft's row names the draft's own business. */
  lemma {:induction false} ReplyRefsNameTheBusiness(s: Sys, steps: seq<Step>, owner: map<string, string>)
    requires Initial(s) && s.table.replyRefs == map[] && Owned(steps, owner)
    ensures RefsOk(Run(s, steps), owner)
  {
    if steps != [] {
      ReplyRefsNameTheBusiness(s, steps[..|steps| - 1], owner);
      RefsStep(Run(s, steps[..|steps| - 1]), steps[|steps| - 1], owner);
    }
  }

  /** This call puts the draft's row into the reply index: it may be lost, but it does not fail. */
  predicate IndexStep(s: Sys, step: Step, draftId: string) {
    && step.Act? && step.w in s.workers && s.workers[step.w].pc == PuttingReplyRef
    && s.workers[step.w].env.detail.draftId == draftId && !step.answer.Fails?
  }

  /** Some call of the run did. */
  ghost predicate Indexed(s: Sys, steps: seq<Step>, draftId: string) {
    exists i :: 0 <= i < |steps| && IndexStep(Run(s, steps[..i]), steps[i], draftId)
  }

  lemma {:induction false} AdvanceKeepsRefs(t: Table, now: int, w: Worker, a: Answer)
    requires w.pc != PuttingReplyRef
    ensures Advance(t, now, w, a).0.replyRefs == t.replyRefs
  {
  }

  lemma {:induction false} RefAdded(s: Sys, step: Step, draftId: string)
    ensures draftId in Next(s, step).table.replyRefs <==> draftId in s.table.replyRefs || IndexStep(s, step, draftId)
  {
    if step.Act? && step.w in s.workers && s.workers[step.w].pc != PuttingReplyRef {
      AdvanceKeepsRefs(s.table, s.now, s.workers[step.w], step.answer);
    }
  }

  lemma {:induction false} IndexedNext(s: Sys, steps: seq<Step>, step: Step, draftId: string)
    ensures Indexed(s, steps + [step], draftId) <==> Indexed(s, steps, draftId) || IndexStep(Run(s, steps), step, draftId)
  {
    var all := steps + [step];
    assert forall i :: 0 <= i <= |steps| ==> all[..i] == steps[..i];
    assert steps[..|steps|] == steps && all[|steps|] == step;
  }

  /** The index holds a draft's row exactly when some worker's index write for it did not fail. */
  lemma {:induction false} IndexedExactly(s: Sys, steps: seq<Step>, draftId: string)
    requires draftId !in s.table.replyRefs
    ensures draftId in Run(s, steps).table.replyRefs <==> Indexed(s, steps, draftId)
  {
    if steps != [] {
      var before, step := steps[..|steps| - 1], steps[|steps| - 1];
      assert steps == before + [step];
      IndexedExactly(s, before, draftId);
      IndexedNext(s, before, step, draftId);
      RefAdded(Run(s, before), step, draftId);
    }
  }

  lemma {:induction false} DeadHolderCannotSend(s: Sys, w: nat)
    requires Inv(s) && w in s.workers && HasSent(s.workers[w])
    ensures !CanStillSend(s, MarkerOf(s.workers[w].env.detail))
  {
    var marker := MarkerOf(s.workers[w].env.detail);
    assert HoldsMarker(s.workers[w]) && !AboutToSend(s.workers[w], marker) by {
      assert WorkerOk(s.workers[w]);
    }
    forall v | v in s.workers && v != w
      ensures !AboutToSend(s.workers[v], marker)
    {
      assert WorkerOk(s.workers[v]);
    }
  }

  /** From the budget check the mail goes out, and the worker dies before the records. */
  lemma {:induction false} SendsAndCrashes(s: Sys, w: nat, msgId: string)
    requires w in s.workers && s.workers[w].pc == CheckingBudget && WorkerOk(s.workers[w])
    ensures var r := Next(Next(Next(s, Act(w, WithinBudget(true))), Act(w, Accepted(msgId))), Crash(w));
            && w in r.workers && HasSent(r.workers[w]) && r.workers[w].env == s.workers[w].env
            && r.table == s.table
  {
    assert Progress(CheckingBudget) == 4;
  }

  /**
   * Accepted and never indexed: from any state where the mail can go out, some run sends it, ends
   * its worker before the index write, and leaves a marker that nobody can send for again.
   */
  lemma {:induction false} SentButNotIndexed(s: Sys, w: nat, env: Envelope, msgId: string) returns (steps: seq<Step>)
    requires Inv(s) && w !in s.workers && env.eventId != "" && !Incomplete(env.detail)
    requires Idempotency.Key(CONSUMER, env.eventId) !in s.table.records
    requires MarkerOf(env.detail) !in s.table.markers && env.detail.draftId !in s.table.replyRefs
    ensures var r := Run(s, steps);
            && w in r.workers && r.workers[w].env == env && HasSent(r.workers[w])
            && env.detail.draftId !in r.table.replyRefs && !CanStillSend(r, MarkerOf(env.detail))
  {
    var read := DeliveryReachesContact(s, w, env);
    var claim := ContactReachesMarker(Run(s, read), w);
    RunConcat(s, read, claim);
    InvRun(s, read + claim);
    var budget, accept, crash := Act(w, WithinBudget(true)), Act(w, Accepted(msgId)), Crash(w);
    SendsAndCrashes(Run(s, read + claim), w, msgId);
    RunOfTwo(Run(s, read + claim), budget, accept);
    RunConcat(s, read + claim, [budget, accept]);
    RunOnto(s, read + claim + [budget, accept], crash);
    steps := read + claim + [budget, accept] + [crash];
    InvRun(s, steps);
    DeadHolderCannotSend(Run(s, steps), w);
  }
}
