/**
 * The life of Website rows. Generator, publisher and operator handlers write whole rows back
 * from an earlier read; screenshotter, sender and cleanup update single attributes. A read may
 * return any version the row ever had, so every interleaving of reads and writes is covered.
 */
module Website {
  import opened Common

  /** Seconds a freshly issued code stays revealable: seven days. */
  const REVEAL_WINDOW := 604_800

  datatype Status = NoStatus | Generated | Published | Regenerated | Approved | Rejected

  /** passcodeHash: SHA-256 of "code|salt", taken as injective; empty for an empty code. */
  datatype PasscodeHash = NoHash | HashOf(code: string, salt: string)

  /** passcodeCipher: KMS encryption, taken as injective. */
  datatype Cipher = NoCipher | Sealed(code: string)

  datatype Row = Row(
    specId: string,
    status: Status,
    previewUrl: string,
    screenshots: map<string, string>,
    hash: PasscodeHash,
    cipher: Cipher,
    revealableUntil: int,
    revokedAt: string,
    approvedBy: string,
    cleanupDueAt: Option<int>)

  const EMPTY := Row("", NoStatus, "", map[], NoHash, NoCipher, 0, "", "", None)

  type Site = (string, string)   // business id, website id

  function Hash(code: string, salt: string): PasscodeHash {
    if code == "" then NoHash else HashOf(code, salt)
  }

  /** The attributes the publisher's row type knows; a put built from it drops the others. */
  function PublisherView(row: Row): Row {
    row.(screenshots := map[], revokedAt := "", approvedBy := "", cleanupDueAt := None)
  }

  /** The operator handlers' row type does not know passcodeCleanupDueAt. */
  function OperatorView(row: Row): Row {
    row.(cleanupDueAt := None)
  }

  const PASSCODE_LENGTH := 8

  datatype Sys = Sys(
    salt: string,
    rows: map<Site, Row>,
    versions: seq<(Site, Row)>,         // everything ever stored, oldest first
    issued: set<(Site, string, int)>)   // codes issued, with the second of issue

  function Initial(salt: string): Sys {
    Sys(salt, map[], [], {})
  }

  datatype Step =
    | Generate(site: Site, specId: string)
    | Publish(site: Site, read: nat, code: string, now: nat, urlBase: string)
    | Decide(site: Site, read: nat, approve: bool, actor: string)
    | RegenerateSite(site: Site, read: nat)
    | RegeneratePasscode(site: Site, read: nat, code: string, now: nat)
    | SetScreenshots(site: Site, urls: map<string, string>)
    | SetCleanupDue(site: Site, due: int)
    | Wipe(site: Site)

  /** What a handler's read returned: some version of that row, however old. */
  function Read(s: Sys, site: Site, read: nat): Option<Row> {
    if read < |s.versions| && s.versions[read].0 == site then Some(s.versions[read].1) else None
  }

  function Store(s: Sys, site: Site, row: Row): Sys {
    s.(rows := s.rows[site := row], versions := s.versions + [(site, row)])
  }

  function Issue(row: Row, code: string, salt: string, now: nat): Row {
    row.(hash := Hash(code, salt), cipher := Sealed(code), revealableUntil := now + REVEAL_WINDOW)
  }

  function Next(s: Sys, step: Step): Sys {
    match step
    case Generate(site, specId) => Store(s, site, EMPTY.(specId := specId, status := Generated))
    case Publish(site, read, code, now, urlBase) =>
      var current := Read(s, site, read);
      if current.None? || current.value.status != Generated || |code| != PASSCODE_LENGTH then s
      else
        Store(s.(issued := s.issued + {(site, code, now)}), site,
              Issue(PublisherView(current.value), code, s.salt, now)
                .(previewUrl := urlBase + "/sites/" + site.1, status := Published))
    case Decide(site, read, approve, actor) =>
      var current := Read(s, site, read);
      if current.None? || current.value.status != Published then s
      else
        Store(s, site, OperatorView(current.value).(status := if approve then Approved else Rejected, approvedBy := actor))
    case RegenerateSite(site, read) =>
      var current := Read(s, site, read);
      if current.None? || current.value.specId == "" then s
      else Store(s, site, OperatorView(current.value).(status := Regenerated))
    case RegeneratePasscode(site, read, code, now) =>
      var current := Read(s, site, read);
      if current.None? || |code| != PASSCODE_LENGTH then s
      else
        Store(s.(issued := s.issued + {(site, code, now)}), site,
              Issue(OperatorView(current.value), code, s.salt, now).(revokedAt := ""))
    case SetScreenshots(site, urls) =>
      // An update without a condition: it would create a missing row.
      Store(s, site, (if site in s.rows then s.rows[site] else EMPTY).(screenshots := urls))
    case SetCleanupDue(site, due) =>
      if site in s.rows then Store(s, site, s.rows[site].(cleanupDueAt := Some(due))) else s
    case Wipe(site) =>
      if site in s.rows && s.rows[site].cipher != NoCipher then Store(s, site, Wiped(s.rows[site])) else s
  }

  function Wiped(row: Row): Row {
    row.(cipher := NoCipher, cleanupDueAt := None)
  }

  function Run(s: Sys, steps: seq<Step>): Sys {
    if steps == [] then s else Next(Run(s, steps[..|steps| - 1]), steps[|steps| - 1])
  }

  // ----- the writers as they run ----------------------------------------------------

  /** HTTP answers of the operator handlers: 200, 400, 404, 409, 500 and 502. */
  datatype Reply = Ok | BadRequest | NotFound | Conflict | Failure | BadGateway | Revealed(code: string)

  /** How a handler's put ends; `Unheard` took effect though the handler saw an error. */
  datatype PutAnswer = Stored | Refused | Unheard

  /** How a queue worker's run ends: done, passed over with a warning, or an error for redelivery. */
  datatype Handled = Completed | Skipped(reason: Reason) | Failed

  datatype Reason = BusinessMissing | SpecMissing | SpecNotApproved | WebsiteMissing | NotGenerated

  /** What a read brings. */
  datatype Found<T> = ReadFails | Absent | Present(value: T)

  datatype Spec = Spec(id: string, approved: bool)

  /** The first call that goes wrong; `PutLost` took effect though the worker saw an error. */
  datatype Fault = NoFault | BeforePut | PutFails | PutLost | PublishFails

  /** The row is written in spite of the fault. */
  predicate Written(fault: Fault) {
    fault != BeforePut && fault != PutFails
  }

  predicate Generates(business: Found<()>, spec: Found<Spec>) {
    business.Present? && spec.Present? && spec.value.approved
  }

  predicate Publishes(business: Found<()>, current: Found<Row>, code: string) {
    business.Present? && current.Present? && current.value.status == Generated && |code| == PASSCODE_LENGTH
  }

  /** Both ids are given and the body, if any, parses. */
  predicate WellFormed(site: Site, bodyParses: bool) {
    site.0 != "" && site.1 != "" && bodyParses
  }

  predicate Decides(current: Found<Row>) {
    current.Present? && current.value.status == Published
  }

  predicate Rerenders(current: Found<Row>) {
    current.Present? && current.value.specId != ""
  }

  /** A code was drawn and sealed for a row that is there. */
  predicate Rotates(current: Found<Row>, code: Option<string>) {
    current.Present? && code.Some? && |code.value| == PASSCODE_LENGTH
  }

  /** Sealed, not revoked, and the window still open; a zero deadline never passes. */
  predicate Revealable(row: Row, now: int) {
    row.cipher.Sealed? && row.revokedAt == "" && (row.revealableUntil <= 0 || now <= row.revealableUntil)
  }

  function Answered(current: Found<Row>): Option<Row> {
    if current.Present? then Some(current.value) else None
  }

  class WebsiteTable {
    const salt: string
    var rows: map<Site, Row>
    ghost var versions: seq<(Site, Row)>
    ghost var issued: set<(Site, string, int)>

    constructor (salt: string)
      ensures State() == Initial(salt)
    {
      this.salt := salt;
      rows, versions, issued := map[], [], {};
    }

    ghost function State(): Sys
      reads this
    {
      Sys(salt, rows, versions, issued)
    }

    method PutWebsite(site: Site, row: Row)
      modifies this
      ensures State() == Store(old(State()), site, row)
    {
      rows := rows[site := row];
      versions := versions + [(site, row)];
    }

    /** The generator resets the row, for a known business and an approved spec. */
    method GeneratorRunOne(site: Site, business: Found<()>, spec: Found<Spec>, fault: Fault) returns (r: Handled)
      modifies this
      ensures r == Skipped(BusinessMissing) <==> business.Absent?
      ensures r == Skipped(SpecMissing) <==> business.Present? && spec.Absent?
      ensures r == Skipped(SpecNotApproved) <==> business.Present? && spec.Present? && !spec.value.approved
      ensures r == Completed <==> Generates(business, spec) && fault == NoFault
      ensures !r.Skipped? || r.reason in {BusinessMissing, SpecMissing, SpecNotApproved}
      ensures rows == if Generates(business, spec) && Written(fault) then
                        old(rows)[site := Row(spec.value.id, Generated, "", map[], NoHash, NoCipher, 0, "", "", None)]
                      else old(rows)
      ensures State() == if Generates(business, spec) && Written(fault) then Next(old(State()), Generate(site, spec.value.id))
                         else old(State())
    {
      if business.ReadFails? {
        return Failed;
      }
      if business.Absent? {
        return Skipped(BusinessMissing);
      }
      if spec.ReadFails? {
        return Failed;
      }
      if spec.Absent? {
        return Skipped(SpecMissing);
      }
      if !spec.value.approved {
        return Skipped(SpecNotApproved);
      }
      if fault == BeforePut || fault == PutFails {
        return Failed;
      }
      var row := Row(spec.value.id, Generated, "", map[], NoHash, NoCipher, 0, "", "", None);
      PutWebsite(site, row);
      return if fault == NoFault then Completed else Failed;
    }

    /** The publisher issues a passcode for a generated row; `code` is what the generator drew. */
    method PublisherRunOne(site: Site, business: Found<()>, current: Found<Row>, ghost read: nat, code: string, now: nat,
                           urlBase: string, fault: Fault)
      returns (r: Handled)
      requires business.Present? && !current.ReadFails? ==> Answered(current) == Read(State(), site, read)
      modifies this
      ensures r == Skipped(BusinessMissing) <==> business.Absent?
      ensures r == Skipped(WebsiteMissing) <==> business.Present? && current.Absent?
      ensures r == Skipped(NotGenerated) <==> business.Present? && current.Present? && current.value.status != Generated
      ensures r == Completed <==> Publishes(business, current, code) && fault == NoFault
      ensures !r.Skipped? || r.reason in {BusinessMissing, WebsiteMissing, NotGenerated}
      ensures rows == if Publishes(business, current, code) && Written(fault) then
                        old(rows)[site := Row(current.value.specId, Published, urlBase + "/sites/" + site.1, map[],
                                              HashOf(code, salt), Sealed(code), now + 604_800, "", "", None)]
                      else old(rows)
      ensures State() == if Publishes(business, current, code) && Written(fault)
                         then Next(old(State()), Publish(site, read, code, now, urlBase)) else old(State())
    {
      if business.ReadFails? {
        return Failed;
      }
      if business.Absent? {
        return Skipped(BusinessMissing);
      }
      if current.ReadFails? {
        return Failed;
      }
      if current.Absent? {
        return Skipped(WebsiteMissing);
      }
      var w := current.value;
      if w.status != Generated {
        return Skipped(NotGenerated);
      }
      if |code| != PASSCODE_LENGTH || fault == BeforePut || fault == PutFails {
        return Failed;
      }
      var hash := Hash(code, salt);
      var cipher := Sealed(code);
      issued := issued + {(site, code, now)};
      var updated := Row(w.specId, Published, urlBase + "/sites/" + site.1, map[], hash, cipher,
                         now + REVEAL_WINDOW, "", "", None);
      PutWebsite(site, updated);
      return if fault == NoFault then Completed else Failed;
    }

    /** Approve or reject: the put comes before the event. */
    method HandleDecision(site: Site, bodyParses: bool, current: Found<Row>, ghost read: nat, approve: bool, actor: string,
                          put: PutAnswer, publishFails: bool)
      returns (r: Reply)
      requires !current.ReadFails? ==> Answered(current) == Read(State(), site, read)
      modifies this
      ensures r == BadRequest <==> !WellFormed(site, bodyParses)
      ensures r == NotFound <==> WellFormed(site, bodyParses) && current.Absent?
      ensures r == Conflict <==> WellFormed(site, bodyParses) && current.Present? && current.value.status != Published
      ensures r == Ok <==> WellFormed(site, bodyParses) && Decides(current) && put == Stored && !publishFails
      ensures r == BadGateway <==> WellFormed(site, bodyParses) && Decides(current) && put == Stored && publishFails
      ensures !r.Revealed?
      ensures rows == if WellFormed(site, bodyParses) && Decides(current) && put != Refused then
                        old(rows)[site := current.value.(status := if approve then Approved else Rejected,
                                                         approvedBy := actor, cleanupDueAt := None)]
                      else old(rows)
      ensures State() == if WellFormed(site, bodyParses) && Decides(current) && put != Refused
                         then Next(old(State()), Decide(site, read, approve, actor)) else old(State())
    {
      if site.0 == "" || site.1 == "" || !bodyParses {
        return BadRequest;
      }
      if current.ReadFails? {
        return Failure;
      }
      if current.Absent? {
        return NotFound;
      }
      if current.value.status != Published {
        return Conflict;
      }
      var updated := OperatorView(current.value);
      updated := updated.(status := if approve then Approved else Rejected);
      updated := updated.(approvedBy := actor);
      if put != Refused {
        PutWebsite(site, updated);
      }
      if put != Stored {
        return Failure;
      }
      return if publishFails then BadGateway else Ok;
    }

    /** Ask for a fresh render: here the event comes before the put, and stays out when the put fails. */
    method HandleRegenerateSite(site: Site, bodyParses: bool, current: Found<Row>, ghost read: nat,
                                publishFails: bool, put: PutAnswer)
      returns (r: Reply, requested: bool)
      requires !current.ReadFails? ==> Answered(current) == Read(State(), site, read)
      modifies this
      ensures r == BadRequest <==> !WellFormed(site, bodyParses)
      ensures r == NotFound <==> WellFormed(site, bodyParses) && current.Absent?
      ensures r == Conflict <==> WellFormed(site, bodyParses) && current.Present? && current.value.specId == ""
      ensures r == BadGateway <==> WellFormed(site, bodyParses) && Rerenders(current) && publishFails
      ensures r == Ok <==> WellFormed(site, bodyParses) && Rerenders(current) && !publishFails && put == Stored
      ensures !r.Revealed?
      ensures requested <==> WellFormed(site, bodyParses) && Rerenders(current) && !publishFails
      ensures rows == if requested && put != Refused then
                        old(rows)[site := current.value.(status := Regenerated, cleanupDueAt := None)] else old(rows)
      ensures State() == if requested && put != Refused then Next(old(State()), RegenerateSite(site, read)) else old(State())
    {
      requested := false;
      if site.0 == "" || site.1 == "" || !bodyParses {
        return BadRequest, false;
      }
      if current.ReadFails? {
        return Failure, false;
      }
      if current.Absent? {
        return NotFound, false;
      }
      if current.value.specId == "" {
        return Conflict, false;
      }
      if publishFails {
        return BadGateway, false;
      }
      requested := true;
      var updated := OperatorView(current.value);
      updated := updated.(status := Regenerated);
      if put != Refused {
        PutWebsite(site, updated);
      }
      return if put == Stored then Ok else Failure, true;
    }

    /** Rotate the code: `code` is what was drawn and sealed, None when that fails; the hash goes to the edge store first. */
    method HandleRegeneratePasscode(site: Site, bodyParses: bool, current: Found<Row>, ghost read: nat, code: Option<string>,
                                    now: nat, edgeFails: bool, put: PutAnswer)
      returns (r: Reply)
      requires !current.ReadFails? ==> Answered(current) == Read(State(), site, read)
      modifies this
      ensures r == BadRequest <==> !WellFormed(site, bodyParses)
      ensures r == NotFound <==> WellFormed(site, bodyParses) && current.Absent?
      ensures r == BadGateway <==> WellFormed(site, bodyParses) && Rotates(current, code) && edgeFails
      ensures r == Ok <==> WellFormed(site, bodyParses) && Rotates(current, code) && !edgeFails && put == Stored
      ensures !r.Conflict? && !r.Revealed?
      ensures rows == if WellFormed(site, bodyParses) && Rotates(current, code) && !edgeFails && put != Refused then
                        old(rows)[site := current.value.(hash := HashOf(code.value, salt), cipher := Sealed(code.value),
                                                         revealableUntil := now + 604_800, revokedAt := "",
                                                         cleanupDueAt := None)]
                      else old(rows)
      ensures State() == if WellFormed(site, bodyParses) && Rotates(current, code) && !edgeFails && put != Refused
                         then Next(old(State()), RegeneratePasscode(site, read, code.value, now)) else old(State())
    {
      if site.0 == "" || site.1 == "" || !bodyParses {
        return BadRequest;
      }
      if current.ReadFails? {
        return Failure;
      }
      if current.Absent? {
        return NotFound;
      }
      if code.None? || |code.value| != PASSCODE_LENGTH {
        return Failure;
      }
      var hash := Hash(code.value, salt);
      if edgeFails {
        return BadGateway;
      }
      var updated := OperatorView(current.value);
      updated := updated.(hash := hash, cipher := Sealed(code.value));
      updated := updated.(revealableUntil := now + REVEAL_WINDOW);
      updated := updated.(revokedAt := "");
      if put != Refused {
        issued := issued + {(site, code.value, now)};
        PutWebsite(site, updated);
      }
      return if put == Stored then Ok else Failure;
    }

    method HandleRevealPasscode(site: Site, current: Found<Row>, now: int, decryptFails: bool) returns (r: Reply)
      ensures r == BadRequest <==> !WellFormed(site, true)
      ensures r == NotFound <==> WellFormed(site, true) && current.Absent?
      ensures r == Conflict <==> WellFormed(site, true) && current.Present? && !Revealable(current.value, now)
      ensures r.Revealed? <==> WellFormed(site, true) && current.Present? && Revealable(current.value, now) && !decryptFails
      ensures r.Revealed? ==> current.value.cipher == Sealed(r.code)
      ensures WellFormed(site, true) && current.Present? ==>
                (Revealable(current.value, now) <==> Reveals(current.value, now).Some?)
      ensures r != Ok && r != BadGateway
    {
      if site.0 == "" || site.1 == "" {
        return BadRequest;
      }
      if current.ReadFails? {
        return Failure;
      }
      if current.Absent? {
        return NotFound;
      }
      var w := current.value;
      if w.cipher == NoCipher {
        return Conflict;
      }
      if w.revokedAt != "" {
        return Conflict;
      }
      if w.revealableUntil > 0 && now > w.revealableUntil {
        return Conflict;
      }
      if decryptFails {
        return Failure;
      }
      return Revealed(w.cipher.code);
    }

    method SetScreenshotsRow(site: Site, urls: map<string, string>)
      modifies this
      ensures rows == old(rows)[site := if site in old(rows) then old(rows)[site].(screenshots := urls)
                                        else Row("", NoStatus, "", urls, NoHash, NoCipher, 0, "", "", None)]
      ensures State() == Next(old(State()), SetScreenshots(site, urls))
    {
      var row := if site in rows then rows[site] else EMPTY;
      PutWebsite(site, row.(screenshots := urls));
    }

    method SetCleanupDueRow(site: Site, due: int)
      modifies this
      ensures rows == if site in old(rows) then old(rows)[site := old(rows)[site].(cleanupDueAt := Some(due))] else old(rows)
      ensures State() == Next(old(State()), SetCleanupDue(site, due))
    {
      if site in rows {
        PutWebsite(site, rows[site].(cleanupDueAt := Some(due)));
      }
    }
  }

  /** The reveal guards: sealed, not revoked, window open. */
  function Reveals(row: Row, now: int): Option<string> {
    if row.cipher == NoCipher || row.revokedAt != "" || (row.revealableUntil > 0 && now > row.revealableUntil) then None
    else Some(row.cipher.code)
  }

  // ----- what survives every interleaving ---------------------------------------------

  /** A sealed code comes with its own hash and its own deadline. */
  predicate PasscodeSound(salt: string, issued: set<(Site, string, int)>, site: Site, row: Row) {
    row.cipher.Sealed? ==>
      && row.hash == Hash(row.cipher.code, salt)
      && row.hash != NoHash
      && (site, row.cipher.code, row.revealableUntil - REVEAL_WINDOW) in issued
      && row.revealableUntil >= REVEAL_WINDOW
  }

  /** A row anyone may look at has a hash to gate it and an address to find it. */
  predicate ServableSound(row: Row) {
    row.status in {Published, Approved, Rejected} ==> row.hash != NoHash && row.previewUrl != ""
  }

  predicate RowOk(salt: string, issued: set<(Site, string, int)>, site: Site, row: Row) {
    PasscodeSound(salt, issued, site, row) && ServableSound(row)
  }

  ghost predicate Inv(s: Sys) {
    && (forall i :: 0 <= i < |s.versions| ==> RowOk(s.salt, s.issued, s.versions[i].0, s.versions[i].1))
    && (forall site :: site in s.rows ==> RowOk(s.salt, s.issued, site, s.rows[site]))
  }

  lemma {:induction false} StoreKeepsInv(s: Sys, issued: set<(Site, string, int)>, site: Site, row: Row)
    requires Inv(s) && s.issued <= issued && RowOk(s.salt, issued, site, row)
    ensures Inv(Store(s.(issued := issued), site, row))
  {
    forall i | 0 <= i < |s.versions|
      ensures RowOk(s.salt, issued, s.versions[i].0, s.versions[i].1)
    {
      assert RowOk(s.salt, s.issued, s.versions[i].0, s.versions[i].1);
    }
    forall w | w in s.rows
      ensures RowOk(s.salt, issued, w, s.rows[w])
    {
      assert RowOk(s.salt, s.issued, w, s.rows[w]);
    }
  }

  lemma {:induction false} InvStep(s: Sys, step: Step)
    requires Inv(s)
    ensures Inv(Next(s, step))
  {
    var r := Next(s, step);
    if r != s {
      var row := r.rows[step.site];
      assert r == Store(s.(issued := r.issued), step.site, row);
      if step.Publish? {
        assert row.previewUrl == step.urlBase + "/sites/" + step.site.1;
        assert row.previewUrl[|step.urlBase|] == '/';
      }
      if step.RegeneratePasscode? || step.Publish? || step.Decide? || step.RegenerateSite? {
        assert RowOk(s.salt, s.issued, step.site, s.versions[step.read].1);
      }
      assert RowOk(s.salt, r.issued, step.site, row);
      StoreKeepsInv(s, r.issued, step.site, row);
    }
  }

  /**
   * In every interleaving, whatever stale reads the puts were built from, each stored row's
   * cipher comes with its hash and its seven-day deadline, and a published, approved or
   * rejected row has a hash and a preview address.
   */
  lemma {:induction false} RowsStaySound(salt: string, steps: seq<Step>)
    ensures Inv(Run(Initial(salt), steps))
  {
    if steps != [] {
      RowsStaySound(salt, steps[..|steps| - 1]);
      InvStep(Run(Initial(salt), steps[..|steps| - 1]), steps[|steps| - 1]);
    }
  }

  lemma {:induction false} RowIsSound(salt: string, steps: seq<Step>, site: Site)
    requires site in Run(Initial(salt), steps).rows
    ensures var s := Run(Initial(salt), steps); RowOk(s.salt, s.issued, site, s.rows[site])
  {
    RowsStaySound(salt, steps);
  }

  /** A revealed code, even from a stale read, was issued for that site at most seven days ago. */
  lemma {:induction false} RevealOnlyInWindow(salt: string, steps: seq<Step>, site: Site, read: nat, now: int)
    requires var s := Run(Initial(salt), steps);
             Read(s, site, read).Some? && Reveals(Read(s, site, read).value, now).Some?
    ensures var s, row := Run(Initial(salt), steps), Read(Run(Initial(salt), steps), site, read).value;
            var code, at := Reveals(row, now).value, row.revealableUntil - REVEAL_WINDOW;
            (site, code, at) in s.issued && now <= at + REVEAL_WINDOW && row.hash == Hash(code, salt)
  {
    RowsStaySound(salt, steps);
    SaltStays(salt, steps);
    var s := Run(Initial(salt), steps);
    assert RowOk(s.salt, s.issued, s.versions[read].0, s.versions[read].1);
  }

  lemma {:induction false} SaltStays(salt: string, steps: seq<Step>)
    ensures Run(Initial(salt), steps).salt == salt
  {
    if steps != [] {
      SaltStays(salt, steps[..|steps| - 1]);
    }
  }

  // ----- how long a code stays sealed -----------------------------------------------------

  function ReadOf(step: Step): Option<nat> {
    match step
    case Publish(_, read, _, _, _) => Some(read)
    case Decide(_, read, _, _) => Some(read)
    case RegenerateSite(_, read) => Some(read)
    case RegeneratePasscode(_, read, _, _) => Some(read)
    case _ => None
  }

  /** The step reads a version stored after `s`, or one that was current in `s`. */
  predicate ReadsSince(s: Sys, step: Step) {
    ReadOf(step).Some? ==>
      var k := ReadOf(step).value;
      k >= |s.versions| || (step.site in s.rows && s.versions[k] == (step.site, s.rows[step.site]))
  }

  predicate IssuesFrom(step: Step, at: int) {
    step.Publish? || step.RegeneratePasscode? ==> step.now >= at
  }

  /** A code still sealed has its deadline after `at`. */
  predicate OpenAfter(row: Row, at: int) {
    row.cipher.Sealed? ==> row.revealableUntil > at
  }

  /** Every row is, and so is every version stored after the first n. */
  ghost predicate AllOpenAfter(s: Sys, n: nat, at: int) {
    && (forall site :: site in s.rows ==> OpenAfter(s.rows[site], at))
    && forall i :: n <= i < |s.versions| ==> OpenAfter(s.versions[i].1, at)
  }

  lemma {:induction false} OpenStep(s: Sys, r: Sys, step: Step, at: int)
    requires s.versions <= r.versions && AllOpenAfter(s, |s.versions|, at) && AllOpenAfter(r, |s.versions|, at)
    requires ReadsSince(s, step) && IssuesFrom(step, at)
    ensures s.versions <= Next(r, step).versions && AllOpenAfter(Next(r, step), |s.versions|, at)
  {
    if ReadOf(step).Some? && ReadOf(step).value < |s.versions| {
      assert r.versions[ReadOf(step).value] == (step.site, s.rows[step.site]);
    }
  }

  /** Once all codes are open past `at`, they stay so while nobody acts on an earlier read. */
  lemma {:induction false} CodesStayOpen(s: Sys, more: seq<Step>, at: int)
    requires AllOpenAfter(s, |s.versions|, at)
    requires forall k :: 0 <= k < |more| ==> ReadsSince(s, more[k]) && IssuesFrom(more[k], at)
    ensures s.versions <= Run(s, more).versions && AllOpenAfter(Run(s, more), |s.versions|, at)
  {
    if more != [] {
      CodesStayOpen(s, more[..|more| - 1], at);
      OpenStep(s, Run(s, more[..|more| - 1]), more[|more| - 1], at);
    }
  }

  lemma {:induction false} RunConcat(s: Sys, a: seq<Step>, b: seq<Step>)
    ensures Run(s, a + b) == Run(Run(s, a), b)
  {
    if b == [] {
      assert a + b == a;
    } else {
      RunConcat(s, a, b[..|b| - 1]);
      assert (a + b)[..|a + b| - 1] == a + b[..|b| - 1];
    }
  }

  // ----- what does not survive ---------------------------------------------------------

  /**
   * A wiped cipher stays wiped across a decision or a regenerate-site put if and only if the
   * put was not built from a read of a version that still held one.
   */
  lemma WipeSurvivesPutExactly(s: Sys, step: Step)
    requires step.Decide? || step.RegenerateSite?
    requires Next(s, step) != s && step.site in s.rows && s.rows[step.site].cipher == NoCipher
    ensures Next(s, step).rows[step.site].cipher == NoCipher <==>
            Read(s, step.site, step.read).value.cipher == NoCipher
  {
  }

  const SITE: Site := ("b", "w")
  const CODE := "ABCDEFGH"

  function PublishedSite(): Sys {
    Next(Next(Initial("salt"), Generate(SITE, "spec")), Publish(SITE, 0, CODE, 1_000, "https://p"))
  }

  /** The sweep wipes the code, an approval that had read the row before puts it back. */
  lemma StaleApprovalRestoresWipedCipher()
    ensures var wiped := Next(PublishedSite(), Wipe(SITE));
            && wiped.rows[SITE].cipher == NoCipher
            && Next(wiped, Decide(SITE, 1, true, "op")).rows[SITE].cipher == Sealed(CODE)
  {
    assert |CODE| == PASSCODE_LENGTH;
    var s := PublishedSite();
    assert s.versions[1].1.status == Published;
  }

  /** A passcode rotation that had read the row before an approval undoes the approval. */
  lemma StaleRotationLosesApproval()
    ensures var approved := Next(PublishedSite(), Decide(SITE, 1, true, "op"));
            && approved.rows[SITE].status == Approved
            && Next(approved, RegeneratePasscode(SITE, 1, CODE, 2_000)).rows[SITE].status == Published
  {
    assert |CODE| == PASSCODE_LENGTH;
    var s := PublishedSite();
    assert s.versions[1].1.status == Published;
  }

  /** A rotation keeps the row's status, an approval among others, exactly when it was built from a read of that status. */
  lemma RotationKeepsStatusExactly(s: Sys, step: Step)
    requires step.RegeneratePasscode? && Next(s, step) != s && step.site in s.rows
    ensures Next(s, step).rows[step.site].status == s.rows[step.site].status <==>
            Read(s, step.site, step.read).value.status == s.rows[step.site].status
  {
  }

  /** Of all writes only the two targeted stamps leave the cleanup stamp in place. */
  lemma StampSurvivesExactly(s: Sys, step: Step)
    requires Next(s, step) != s && step.site in s.rows && s.rows[step.site].cleanupDueAt.Some?
    ensures Next(s, step).rows[step.site].cleanupDueAt.Some? <==> step.SetScreenshots? || step.SetCleanupDue?
  {
  }

  /** Every whole-row put forgets the sender's 24-hour cleanup stamp, fresh read or not. */
  lemma WholeRowPutDropsCleanupStamp(s: Sys, step: Step)
    requires !step.SetScreenshots? && !step.SetCleanupDue? && !step.Wipe?
    requires Next(s, step) != s
    ensures Next(s, step).rows[step.site].cleanupDueAt == None
  {
  }
}
