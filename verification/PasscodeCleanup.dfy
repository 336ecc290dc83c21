/** The hourly sweep that wipes sealed passcodes: a paged scan, then one conditional update each. */
module PasscodeCleanup {
  import opened Common
  import Website

  type Key = (string, string)   // pk, sk

  datatype Item = WebsiteItem(row: Website.Row) | OtherItem(kind: string)

  datatype Ref = Ref(businessId: string, websiteId: string, reason: string)

  /** What goes wrong about one reference; `WriteLost` took effect though the sweep saw an error. */
  datatype Fault = NoFault | WriteFault | WriteLost | PublishFault

  /** What the calls about reference n meet. */
  function FaultAt(faults: seq<Fault>, n: nat): Fault {
    if n < |faults| then faults[n] else NoFault
  }

  function TrimPrefix(s: string, prefix: string): string {
    if prefix <= s then s[|prefix|..] else s
  }

  function RefKey(ref: Ref): Key {
    ("BUSINESS#" + ref.businessId, "WEBSITE#" + ref.websiteId)
  }

  predicate WebsiteKey(k: Key) {
    "BUSINESS#" <= k.0 && "WEBSITE#" <= k.1
  }

  /** The scan's filter; passcodeRevealableUntil is omitted from the item when it is zero. */
  predicate Due(item: Item, now: int) {
    && item.WebsiteItem?
    && item.row.cipher.Sealed?
    && (DuePassed(item.row.cleanupDueAt, now) || (item.row.revealableUntil != 0 && item.row.revealableUntil <= now))
  }

  predicate DuePassed(due: Option<int>, now: int) {
    due.Some? && due.value <= now
  }

  function RefOf(k: Key, item: Item, now: int): Ref
    requires item.WebsiteItem?
  {
    Ref(TrimPrefix(k.0, "BUSINESS#"), TrimPrefix(k.1, "WEBSITE#"),
        if DuePassed(item.row.cleanupDueAt, now) then "sent_24h" else "revealable_expired")
  }

  /** A reference taken from a website key addresses that same item again. */
  lemma RefRoundTrip(k: Key, item: Item, now: int)
    requires WebsiteKey(k) && item.WebsiteItem?
    ensures RefKey(RefOf(k, item, now)) == k
  {
    assert k.0 == "BUSINESS#" + k.0[|"BUSINESS#"|..];
    assert k.1 == "WEBSITE#" + k.1[|"WEBSITE#"|..];
  }

  function WipedItem(item: Item): Item {
    if item.WebsiteItem? then WebsiteItem(Website.Wiped(item.row)) else item
  }

  class ItemsTable {
    var items: map<Key, Item>

    constructor (items: map<Key, Item>)
      ensures this.items == items
    {
      this.items := items;
    }

    /** One page, filtered by the scan's expression. */
    method ReadPage(keys: seq<Key>, now: int) returns (refs: seq<Ref>)
      ensures refs == DueRefs(keys, items, now)
    {
      refs := [];
      var at := 0;
      while at < |keys|
        invariant 0 <= at <= |keys|
        invariant refs == DueRefs(keys[..at], items, now)
      {
        var k := keys[at];
        assert keys[..at + 1][..at] == keys[..at];
        if k in items && Due(items[k], now) {
          var reason := if DuePassed(items[k].row.cleanupDueAt, now) then "sent_24h" else "revealable_expired";
          refs := refs + [Ref(TrimPrefix(k.0, "BUSINESS#"), TrimPrefix(k.1, "WEBSITE#"), reason)];
        }
        at := at + 1;
      }
      assert keys[..at] == keys;
    }

    /** The paged scan: `pages` is how DynamoDB happened to split the table. */
    method ScanDue(pages: seq<seq<Key>>, now: int) returns (refs: seq<Ref>)
      ensures refs == DueRefs(Flatten(pages), items, now)
    {
      refs := [];
      var page := 0;
      while page < |pages|
        invariant 0 <= page <= |pages|
        invariant refs == DueRefs(Flatten(pages[..page]), items, now)
      {
        var found := ReadPage(pages[page], now);
        DueRefsAppend(Flatten(pages[..page]), pages[page], items, now);
        assert pages[..page + 1][..page] == pages[..page];
        refs := refs + found;
        page := page + 1;
      }
      assert pages[..page] == pages;
    }

    /** REMOVE the cipher and the stamp, on condition that the cipher is still there. */
    method Wipe(ref: Ref, fault: Fault) returns (did: bool, failed: bool)
      modifies this
      ensures failed <==> WriteErrs(fault)
      ensures var k := ("BUSINESS#" + ref.businessId, "WEBSITE#" + ref.websiteId);
              var there := k in old(items) && old(items)[k].WebsiteItem? && old(items)[k].row.cipher.Sealed?;
              && (did <==> !failed && there)
              && items == if fault != WriteFault && there then
                   old(items)[k := WebsiteItem(old(items)[k].row.(cipher := Website.NoCipher, cleanupDueAt := None))]
                 else old(items)
    {
      if fault == WriteFault {
        return false, true;
      }
      var k := ("BUSINESS#" + ref.businessId, "WEBSITE#" + ref.websiteId);
      var there := k in items && SealedItem(items[k]);
      if there {
        var row := items[k].row.(cipher := Website.NoCipher);
        row := row.(cleanupDueAt := None);
        items := items[k := WebsiteItem(row)];
      }
      if fault == WriteLost {
        return false, true;
      }
      return there, false;
    }

    /** The body of the sweep's loop: wipe, then announce; a row already wiped is passed over. */
    method SweepOne(refs: seq<Ref>, faults: seq<Fault>, n: nat, ghost start: map<Key, Item>, ghost now: int)
      returns (counted: bool, errored: bool)
      requires n < |refs| && AllAddressDue(start, refs, now) && Swept(start, items, refs, faults, n)
      modifies this
      ensures Swept(start, items, refs, faults, n + 1)
      ensures errored <==> Errs(refs, faults, n)
      ensures SomeErrs(refs, faults, n + 1) <==> SomeErrs(refs, faults, n) || errored
      ensures Announcements(refs, faults, n + 1) == Announcements(refs, faults, n) + if counted then [refs[n]] else []
    {
      SomeErrsNext(refs, faults, n);
      HeldUntilReached(start, items, refs, faults, n, now);
      SweptNext(start, items, refs, faults, n, now);
      var did, werr := Wipe(refs[n], FaultAt(faults, n));
      if werr {
        return false, true;
      }
      if !did {
        return false, false;
      }
      if FaultAt(faults, n) == PublishFault {
        return false, true;
      }
      return true, false;
    }

    /** The sweep's loop over the references of the scan. */
    method SweepAll(refs: seq<Ref>, faults: seq<Fault>, ghost now: int)
      returns (wiped: nat, failed: nat, published: seq<Ref>)
      requires AllAddressDue(items, refs, now)
      modifies this
      ensures |published| == wiped
      ensures published == Announcements(refs, faults, |refs|)
      ensures failed > 0 <==> SomeErrs(refs, faults, |refs|)
      ensures Swept(old(items), items, refs, faults, |refs|)
    {
      wiped, failed, published := 0, 0, [];
      ghost var start := items;
      var n := 0;
      SweptNothing(start, refs, faults);
      while n < |refs|
        invariant 0 <= n <= |refs| && |published| == wiped
        invariant published == Announcements(refs, faults, n)
        invariant failed > 0 <==> SomeErrs(refs, faults, n)
        invariant Swept(start, items, refs, faults, n)
      {
        var counted, errored := SweepOne(refs, faults, n, start, now);
        if errored {
          failed := failed + 1;
        }
        if counted {
          published := published + [refs[n]];
          wiped := wiped + 1;
        }
        n := n + 1;
      }
    }

    /**
     * The sweep proper. A failing scan touches nothing; otherwise an error comes back exactly when
     * some reference's write reported one, or its announcement failed after its own wipe. Run
     * alone over the whole table and without faults it leaves nothing due.
     */
    method Sweep(scanFails: bool, pages: seq<seq<Key>>, now: int, faults: seq<Fault>)
      returns (refs: seq<Ref>, wiped: nat, failed: nat, published: seq<Ref>, error: bool)
      requires WebsiteKeysOnly(items)
      modifies this
      ensures refs == if scanFails then [] else DueRefs(Flatten(pages), old(items), now)
      ensures forall n :: 0 <= n < |refs| ==> RightReason(old(items), refs[n], now)
      ensures error <==> scanFails || SomeErrs(refs, faults, |refs|)
      ensures |published| == wiped && published == Announcements(refs, faults, |refs|)
      ensures Swept(old(items), items, refs, faults, |refs|)
      ensures OnlyDueWiped(old(items), items, now)
      ensures !error ==> AllWiped(items, refs)
      ensures Announced(old(items), items, published, now)
      ensures !scanFails && NoFaults(faults) && Covers(pages, old(items).Keys) ==>
                !error && forall k :: k in items && items[k].WebsiteItem? && items[k].row.cipher.Sealed? ==>
                            (items[k].row.cleanupDueAt.Some? ==> items[k].row.cleanupDueAt.value > now)
                            && (items[k].row.revealableUntil != 0 ==> items[k].row.revealableUntil > now)
      ensures forall k :: k in items && items[k] != old(items)[k] ==>
                && old(items)[k].WebsiteItem? && old(items)[k].row.cipher.Sealed?
                && ((old(items)[k].row.cleanupDueAt.Some? && old(items)[k].row.cleanupDueAt.value <= now)
                    || 0 != old(items)[k].row.revealableUntil <= now)
    {
      if scanFails {
        return [], 0, 0, [], true;
      }
      refs := ScanDue(pages, now);
      RefsAreDue(Flatten(pages), items, now);
      wiped, failed, published := SweepAll(refs, faults, now);
      error := failed > 0;
      SweptOnlyDue(old(items), items, refs, faults, now);
      SweptAnnounced(old(items), items, refs, faults, |refs|, now);
      if Covers(pages, old(items).Keys) && !error {
        NothingDueAfterSweep(pages, old(items), items, now);
      }
    }
  }

  /** The reference names a sealed row of the table, with the trigger that has passed: the send's, or else the window's. */
  ghost predicate RightReason(items: map<Key, Item>, ref: Ref, now: int) {
    var k := ("BUSINESS#" + ref.businessId, "WEBSITE#" + ref.websiteId);
    && k in items && items[k].WebsiteItem? && items[k].row.cipher.Sealed?
    && if items[k].row.cleanupDueAt.Some? && items[k].row.cleanupDueAt.value <= now then ref.reason == "sent_24h"
       else ref.reason == "revealable_expired" && 0 != items[k].row.revealableUntil <= now
  }

  // ----- what the loop has done ---------------------------------------------------------

  predicate WriteErrs(fault: Fault) {
    fault == WriteFault || fault == WriteLost
  }

  ghost predicate NoFaults(faults: seq<Fault>) {
    forall n: nat :: FaultAt(faults, n) == NoFault
  }

  /** The wipe's condition. */
  predicate Holds(items: map<Key, Item>, ref: Ref) {
    RefKey(ref) in items && SealedItem(items[RefKey(ref)])
  }

  /** One of the first n references addresses this key, and its wipe reached the table. */
  ghost predicate Reached(refs: seq<Ref>, faults: seq<Fault>, n: nat, k: Key)
    requires n <= |refs|
  {
    exists j :: 0 <= j < n && RefKey(refs[j]) == k && FaultAt(faults, j) != WriteFault
  }

  /** Reference n is the first whose wipe reaches its item: pages may name an item twice. */
  ghost predicate TakesEffect(refs: seq<Ref>, faults: seq<Fault>, n: nat)
    requires n < |refs|
  {
    FaultAt(faults, n) != WriteFault && !Reached(refs, faults, n, RefKey(refs[n]))
  }

  ghost predicate Errs(refs: seq<Ref>, faults: seq<Fault>, n: nat)
    requires n < |refs|
  {
    WriteErrs(FaultAt(faults, n)) || (FaultAt(faults, n) == PublishFault && TakesEffect(refs, faults, n))
  }

  ghost predicate Announces(refs: seq<Ref>, faults: seq<Fault>, n: nat)
    requires n < |refs|
  {
    FaultAt(faults, n) == NoFault && TakesEffect(refs, faults, n)
  }

  ghost predicate SomeErrs(refs: seq<Ref>, faults: seq<Fault>, n: nat)
    requires n <= |refs|
  {
    exists j :: 0 <= j < n && Errs(refs, faults, j)
  }

  ghost function Announcements(refs: seq<Ref>, faults: seq<Fault>, n: nat): seq<Ref>
    requires n <= |refs|
  {
    if n == 0 then []
    else Announcements(refs, faults, n - 1) + if Announces(refs, faults, n - 1) then [refs[n - 1]] else []
  }

  /** Exactly the items reached by the first n references are wiped. */
  ghost predicate Swept(start: map<Key, Item>, items: map<Key, Item>, refs: seq<Ref>, faults: seq<Fault>, n: nat)
    requires n <= |refs|
  {
    && items.Keys == start.Keys
    && forall k :: k in start ==> items[k] == if Reached(refs, faults, n, k) then WipedItem(start[k]) else start[k]
  }

  lemma {:induction false} SweptNothing(items: map<Key, Item>, refs: seq<Ref>, faults: seq<Fault>)
    ensures Swept(items, items, refs, faults, 0) && !SomeErrs(refs, faults, 0) && Announcements(refs, faults, 0) == []
  {
  }

  lemma {:induction false} HeldUntilReached(
      start: map<Key, Item>, items: map<Key, Item>, refs: seq<Ref>, faults: seq<Fault>, n: nat, now: int)
    requires n < |refs| && AllAddressDue(start, refs, now) && Swept(start, items, refs, faults, n)
    ensures Holds(items, refs[n]) <==> !Reached(refs, faults, n, RefKey(refs[n]))
  {
    assert AddressesDue(start, refs[n], now);
  }

  lemma {:induction false} ReachedNext(refs: seq<Ref>, faults: seq<Fault>, n: nat, k: Key)
    requires n < |refs|
    ensures Reached(refs, faults, n + 1, k) <==>
            Reached(refs, faults, n, k) || (RefKey(refs[n]) == k && FaultAt(faults, n) != WriteFault)
  {
  }

  lemma {:induction false} SomeErrsNext(refs: seq<Ref>, faults: seq<Fault>, n: nat)
    requires n < |refs|
    ensures SomeErrs(refs, faults, n + 1) <==> SomeErrs(refs, faults, n) || Errs(refs, faults, n)
  {
  }

  lemma {:induction false} SweptNext(
      start: map<Key, Item>, items: map<Key, Item>, refs: seq<Ref>, faults: seq<Fault>, n: nat, now: int)
    requires n < |refs| && AllAddressDue(start, refs, now) && Swept(start, items, refs, faults, n)
    ensures var k := RefKey(refs[n]);
            var after := if FaultAt(faults, n) != WriteFault && Holds(items, refs[n]) then items[k := WipedItem(items[k])] else items;
            Swept(start, after, refs, faults, n + 1)
  {
    assert AddressesDue(start, refs[n], now);
    forall k | k in start {
      ReachedNext(refs, faults, n, k);
    }
  }

  /** Only due items are wiped, and without an error every reference's item is. */
  lemma {:induction false} SweptOnlyDue(
      start: map<Key, Item>, items: map<Key, Item>, refs: seq<Ref>, faults: seq<Fault>, now: int)
    requires AllAddressDue(start, refs, now) && Swept(start, items, refs, faults, |refs|)
    ensures OnlyDueWiped(start, items, now)
    ensures !SomeErrs(refs, faults, |refs|) ==> AllWiped(items, refs)
  {
    forall k | k in start && Reached(refs, faults, |refs|, k)
      ensures Due(start[k], now)
    {
      var j :| 0 <= j < |refs| && RefKey(refs[j]) == k && FaultAt(faults, j) != WriteFault;
      assert AddressesDue(start, refs[j], now);
    }
    if !SomeErrs(refs, faults, |refs|) {
      forall n | 0 <= n < |refs|
        ensures RefKey(refs[n]) in items && !SealedItem(items[RefKey(refs[n])])
      {
        assert AddressesDue(start, refs[n], now) && !Errs(refs, faults, n);
        assert Reached(refs, faults, |refs|, RefKey(refs[n]));
      }
    }
  }

  lemma {:induction false} SweptAnnounced(
      start: map<Key, Item>, items: map<Key, Item>, refs: seq<Ref>, faults: seq<Fault>, n: nat, now: int)
    requires n <= |refs| && AllAddressDue(start, refs, now) && Swept(start, items, refs, faults, |refs|)
    ensures Announced(start, items, Announcements(refs, faults, n), now)
  {
    if n > 0 {
      SweptAnnounced(start, items, refs, faults, n - 1, now);
      if Announces(refs, faults, n - 1) {
        assert AddressesDue(start, refs[n - 1], now);
        assert Reached(refs, faults, |refs|, RefKey(refs[n - 1]));
      }
    }
  }

  /** The references a scan over these keys yields. */
  function DueRefs(keys: seq<Key>, items: map<Key, Item>, now: int): seq<Ref> {
    if keys == [] then []
    else
      var k := keys[|keys| - 1];
      DueRefs(keys[..|keys| - 1], items, now) + if k in items && Due(items[k], now) then [RefOf(k, items[k], now)] else []
  }

  lemma {:induction false} DueRefsAppend(a: seq<Key>, b: seq<Key>, items: map<Key, Item>, now: int)
    ensures DueRefs(a + b, items, now) == DueRefs(a, items, now) + DueRefs(b, items, now)
  {
    if b == [] {
      assert a + b == a;
    } else {
      assert (a + b)[..|a + b| - 1] == a + b[..|b| - 1];
      DueRefsAppend(a, b[..|b| - 1], items, now);
    }
  }

  predicate WebsiteKeysOnly(items: map<Key, Item>) {
    forall k :: k in items && items[k].WebsiteItem? ==> WebsiteKey(k)
  }

  predicate AddressesDue(items: map<Key, Item>, ref: Ref, now: int) {
    RefKey(ref) in items && Due(items[RefKey(ref)], now) && ref == RefOf(RefKey(ref), items[RefKey(ref)], now)
  }

  ghost predicate AllAddressDue(items: map<Key, Item>, refs: seq<Ref>, now: int) {
    forall n :: 0 <= n < |refs| ==> AddressesDue(items, refs[n], now)
  }

  /** Every reference of a scan addresses a due item and carries that item's reason. */
  lemma {:induction false} RefsAreDue(keys: seq<Key>, items: map<Key, Item>, now: int)
    requires WebsiteKeysOnly(items)
    ensures AllAddressDue(items, DueRefs(keys, items, now), now)
  {
    if keys != [] {
      RefsAreDue(keys[..|keys| - 1], items, now);
      var k := keys[|keys| - 1];
      if k in items && Due(items[k], now) {
        RefRoundTrip(k, items[k], now);
      }
    }
  }

  /** No due item on any page is missed. */
  lemma {:induction false} DueItemIsReferenced(keys: seq<Key>, items: map<Key, Item>, now: int, k: Key)
    requires k in keys && k in items && Due(items[k], now)
    ensures RefOf(k, items[k], now) in DueRefs(keys, items, now)
  {
    var last := keys[|keys| - 1];
    if k != last {
      assert keys == keys[..|keys| - 1] + [last];
      DueItemIsReferenced(keys[..|keys| - 1], items, now, k);
    }
  }

  ghost predicate OnlyDueWiped(before: map<Key, Item>, after: map<Key, Item>, now: int) {
    && after.Keys == before.Keys
    && forall k :: k in before ==> after[k] == before[k] || (Due(before[k], now) && after[k] == WipedItem(before[k]))
  }

  ghost predicate AllWiped(items: map<Key, Item>, refs: seq<Ref>) {
    forall n :: 0 <= n < |refs| ==> RefKey(refs[n]) in items && !SealedItem(items[RefKey(refs[n])])
  }

  /** An announcement is only made for an item that was due and is now wiped. */
  ghost predicate Announced(before: map<Key, Item>, after: map<Key, Item>, published: seq<Ref>, now: int) {
    forall n :: 0 <= n < |published| ==>
      AddressesDue(before, published[n], now) && RefKey(published[n]) in after && !SealedItem(after[RefKey(published[n])])
  }

  predicate SealedItem(item: Item) {
    item.WebsiteItem? && item.row.cipher.Sealed?
  }

  // ----- what a successful sweep leaves -----------------------------------------------

  /** Every key of the table is on some page. */
  ghost predicate Covers(pages: seq<seq<Key>>, keys: set<Key>) {
    forall k :: k in keys ==> k in Flatten(pages)
  }

  /** However the scan was split, a sweep without an error leaves no item past a deadline. */
  lemma {:induction false} NothingDueAfterSweep(pages: seq<seq<Key>>, before: map<Key, Item>, after: map<Key, Item>, now: int)
    requires WebsiteKeysOnly(before) && Covers(pages, before.Keys)
    requires OnlyDueWiped(before, after, now) && AllWiped(after, DueRefs(Flatten(pages), before, now))
    ensures forall k :: k in after ==> !Due(after[k], now)
  {
    forall k | k in after
      ensures !Due(after[k], now)
    {
      if Due(before[k], now) {
        DueItemIsReferenced(Flatten(pages), before, now, k);
        RefRoundTrip(k, before[k], now);
      }
    }
  }

  function SiteKey(site: Website.Site): Key {
    ("BUSINESS#" + site.0, "WEBSITE#" + site.1)
  }

  /** The table that holds the rows of the website model. */
  ghost predicate Stores(items: map<Key, Item>, s: Website.Sys) {
    forall site :: site in s.rows ==> SiteKey(site) in items && items[SiteKey(site)] == WebsiteItem(s.rows[site])
  }

  /**
   * Whatever interleaving of the writers led here, after an error-free sweep at `now` every
   * code still sealed was issued less than seven days before `now`.
   */
  lemma {:induction false} SealedCodesAreYoung(salt: string, steps: seq<Website.Step>, pages: seq<seq<Key>>,
                                               before: map<Key, Item>, after: map<Key, Item>, now: int, site: Website.Site)
    requires Stores(before, Website.Run(Website.Initial(salt), steps))
    requires WebsiteKeysOnly(before) && Covers(pages, before.Keys)
    requires OnlyDueWiped(before, after, now) && AllWiped(after, DueRefs(Flatten(pages), before, now))
    requires site in Website.Run(Website.Initial(salt), steps).rows
    ensures SiteKey(site) in after && after[SiteKey(site)].WebsiteItem?
    ensures IssuedWithin(Website.Run(Website.Initial(salt), steps).issued, site, after[SiteKey(site)].row, now)
  {
    NothingDueAfterSweep(pages, before, after, now);
    Website.RowIsSound(salt, steps, site);
    UndueIsYoung(Website.Run(Website.Initial(salt), steps), before, after, now, site);
  }

  lemma {:induction false} UndueIsYoung(
      s: Website.Sys, before: map<Key, Item>, after: map<Key, Item>, now: int, site: Website.Site)
    requires site in s.rows && Website.RowOk(s.salt, s.issued, site, s.rows[site])
    requires Stores(before, s) && OnlyDueWiped(before, after, now)
    requires !Due(after[SiteKey(site)], now)
    ensures SiteKey(site) in after && after[SiteKey(site)].WebsiteItem?
    ensures IssuedWithin(s.issued, site, after[SiteKey(site)].row, now)
  {
  }

  /** Wiping these sites, one step each, changes them as the sweep does and no others. */
  lemma {:induction false} WipeEach(s: Website.Sys, sites: set<Website.Site>) returns (wipes: seq<Website.Step>)
    requires forall site :: site in sites ==> site in s.rows && s.rows[site].cipher.Sealed?
    ensures forall k :: 0 <= k < |wipes| ==> wipes[k].Wipe?
    ensures var r := Website.Run(s, wipes);
            && r.rows.Keys == s.rows.Keys
            && forall site :: site in s.rows ==>
                 r.rows[site] == if site in sites then Website.Wiped(s.rows[site]) else s.rows[site]
    decreases |sites|
  {
    if sites == {} {
      wipes := [];
    } else {
      var site :| site in sites;
      var first := WipeEach(s, sites - {site});
      var mid := Website.Run(s, first);
      assert mid.rows[site] == s.rows[site];
      wipes := first + [Website.Wipe(site)];
      assert wipes[..|wipes| - 1] == first;
      assert Website.Run(s, wipes) == Website.Store(mid, site, Website.Wiped(mid.rows[site]));
    }
  }

  /** A sweep is a run of Wipe steps of the website model: afterwards the table holds that run's rows. */
  lemma {:induction false} SweepIsWipes(s: Website.Sys, before: map<Key, Item>, after: map<Key, Item>, now: int)
    returns (wipes: seq<Website.Step>)
    requires Stores(before, s) && OnlyDueWiped(before, after, now)
    ensures forall k :: 0 <= k < |wipes| ==> wipes[k].Wipe?
    ensures Stores(after, Website.Run(s, wipes))
  {
    var sites := set site | site in s.rows && after[SiteKey(site)] != before[SiteKey(site)];
    wipes := WipeEach(s, sites);
  }

  /**
   * Between sweeps: let an error-free sweep at `now` have left the table holding the rows of a
   * run, and let the writers go on with codes issued from then on and reads of what was current
   * then or stored later. At any instant `later` every code still sealed was issued less than
   * seven days and the time since the sweep before.
   */
  lemma {:induction false} SealedCodesAge(
      salt: string, steps: seq<Website.Step>, after: map<Key, Item>, now: int,
      more: seq<Website.Step>, later: int, site: Website.Site)
    requires var s := Website.Run(Website.Initial(salt), steps);
             && Stores(after, s) && (forall k :: k in after ==> !Due(after[k], now))
             && (forall k :: 0 <= k < |more| ==> Website.ReadsSince(s, more[k]) && Website.IssuesFrom(more[k], now))
    requires later >= now && site in Website.Run(Website.Initial(salt), steps + more).rows
    ensures var r := Website.Run(Website.Initial(salt), steps + more);
            var row := r.rows[site];
            row.cipher.Sealed? ==>
              var issuedAt := row.revealableUntil - Website.REVEAL_WINDOW;
              (site, row.cipher.code, issuedAt) in r.issued
              && later - issuedAt < Website.REVEAL_WINDOW + (later - now)
  {
    var s := Website.Run(Website.Initial(salt), steps);
    forall w | w in s.rows ensures Website.OpenAfter(s.rows[w], now) {
      assert !Due(after[SiteKey(w)], now);
      Website.RowIsSound(salt, steps, w);
    }
    Website.CodesStayOpen(s, more, now);
    Website.RunConcat(Website.Initial(salt), steps, more);
    Website.RowIsSound(salt, steps + more, site);
  }

  /** A sealed code, if any, was issued for the site less than the reveal window before `now`. */
  predicate IssuedWithin(issued: set<(Website.Site, string, int)>, site: Website.Site, row: Website.Row, now: int) {
    row.cipher.Sealed? ==>
      (site, row.cipher.code, row.revealableUntil - Website.REVEAL_WINDOW) in issued
      && now < row.revealableUntil
  }

  // ----- a scan is not a lock -------------------------------------------------------------

  predicate DueRow(row: Website.Row, now: int) {
    Due(WebsiteItem(row), now)
  }

  /** The wipe's condition would hold though nothing about the row is due. */
  predicate UndueCode(s: Website.Sys, site: Website.Site, now: int) {
    site in s.rows && s.rows[site].cipher.Sealed? && !DueRow(s.rows[site], now)
  }

  /** The step stores the site's row anew, other than to change its screenshots. */
  predicate Rewrites(s: Website.Sys, step: Website.Step, site: Website.Site) {
    step.site == site && !step.SetScreenshots? && Website.Next(s, step) != s
  }

  predicate Ahead(row: Website.Row, now: int) {
    row.revealableUntil == 0 || now < row.revealableUntil
  }

  predicate OpenCode(row: Option<Website.Row>, now: int) {
    row.Some? && row.value.cipher.Sealed? && Ahead(row.value, now)
  }

  /** The step issues a code, puts back a code read, or moves the stamp, with all deadlines ahead of `now`. */
  predicate PutsUndueCode(s: Website.Sys, step: Website.Step, now: int) {
    match step
    case Publish(_, _, _, at, _) => now < at + Website.REVEAL_WINDOW
    case RegeneratePasscode(_, _, _, at) => now < at + Website.REVEAL_WINDOW
    case Decide(site, read, _, _) => OpenCode(Website.Read(s, site, read), now)
    case RegenerateSite(site, read) => OpenCode(Website.Read(s, site, read), now)
    case SetCleanupDue(site, due) => due > now && site in s.rows && OpenCode(Some(s.rows[site]), now)
    case _ => false
  }

  lemma {:induction false} RewriteDecides(s: Website.Sys, step: Website.Step, site: Website.Site, now: int)
    requires Rewrites(s, step, site)
    ensures UndueCode(Website.Next(s, step), site, now) <==> PutsUndueCode(s, step, now)
  {
  }

  lemma {:induction false} OthersLeaveCode(s: Website.Sys, step: Website.Step, site: Website.Site, now: int)
    requires site in s.rows && !Rewrites(s, step, site)
    ensures UndueCode(Website.Next(s, step), site, now) <==> UndueCode(s, site, now)
  {
  }

  lemma {:induction false} RowsStay(s: Website.Sys, steps: seq<Website.Step>, site: Website.Site)
    requires site in s.rows
    ensures site in Website.Run(s, steps).rows
  {
    if steps != [] {
      RowsStay(s, steps[..|steps| - 1], site);
    }
  }

  /** The last rewrite of the row since `s` put an undue code there. */
  ghost predicate LastRewriteAt(s: Website.Sys, more: seq<Website.Step>, site: Website.Site, now: int, j: nat)
    requires j < |more|
  {
    && Rewrites(Website.Run(s, more[..j]), more[j], site)
    && PutsUndueCode(Website.Run(s, more[..j]), more[j], now)
    && forall i :: j < i < |more| ==> !Rewrites(Website.Run(s, more[..i]), more[i], site)
  }

  ghost predicate LastRewriteUndue(s: Website.Sys, more: seq<Website.Step>, site: Website.Site, now: int) {
    exists j :: 0 <= j < |more| && LastRewriteAt(s, more, site, now, j)
  }

  lemma {:induction false} LastRewriteNext(s: Website.Sys, more: seq<Website.Step>, step: Website.Step, site: Website.Site, now: int)
    ensures LastRewriteUndue(s, more + [step], site, now) <==>
            if Rewrites(Website.Run(s, more), step, site) then PutsUndueCode(Website.Run(s, more), step, now)
            else LastRewriteUndue(s, more, site, now)
  {
    var all := more + [step];
    assert forall i :: 0 <= i <= |more| ==> all[..i] == more[..i];
    assert more[..|more|] == more && all[|more|] == step;
    forall j | 0 <= j < |more|
      ensures LastRewriteAt(s, all, site, now, j) <==>
              LastRewriteAt(s, more, site, now, j) && !Rewrites(Website.Run(s, more), step, site)
    {
    }
    assert LastRewriteAt(s, all, site, now, |more|) <==>
           Rewrites(Website.Run(s, more), step, site) && PutsUndueCode(Website.Run(s, more), step, now);
  }

  /**
   * The wipe asks for a cipher, not for a due one. Let the scan have seen the row due in `s`, and
   * let any writers go on before the wipe: what it finds sealed is not due exactly when the last
   * rewrite in between put an undue code there.
   */
  lemma {:induction false} WipedUndueExactly(s: Website.Sys, more: seq<Website.Step>, site: Website.Site, now: int)
    requires site in s.rows && DueRow(s.rows[site], now)
    ensures UndueCode(Website.Run(s, more), site, now) <==> LastRewriteUndue(s, more, site, now)
  {
    if more != [] {
      var before, step := more[..|more| - 1], more[|more| - 1];
      assert more == before + [step];
      WipedUndueExactly(s, before, site, now);
      LastRewriteNext(s, before, step, site, now);
      RowsStay(s, before, site);
      if Rewrites(Website.Run(s, before), step, site) {
        RewriteDecides(Website.Run(s, before), step, site, now);
      } else {
        OthersLeaveCode(Website.Run(s, before), step, site, now);
      }
    }
  }

  /** A rotation between the scan and the wipe: the code wiped has its seven days still before it. */
  lemma {:induction false} RotatedCodeIsWiped(now: nat)
    requires now >= 1_000 + Website.REVEAL_WINDOW
    ensures var s := Website.PublishedSite();
            var rotated := Website.Next(s, Website.RegeneratePasscode(Website.SITE, 1, "HGFEDCBA", now));
            && DueRow(s.rows[Website.SITE], now)
            && rotated.rows[Website.SITE].revealableUntil == now + Website.REVEAL_WINDOW
            && UndueCode(rotated, Website.SITE, now)
            && Website.Next(rotated, Website.Wipe(Website.SITE)).rows[Website.SITE].cipher == Website.NoCipher
  {
    assert |Website.CODE| == Website.PASSCODE_LENGTH && |"HGFEDCBA"| == Website.PASSCODE_LENGTH;
    var s := Website.PublishedSite();
    assert s.versions[1].1.cipher == Website.Sealed(Website.CODE);
  }
}
