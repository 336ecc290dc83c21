/** WithIdempotency: a conditional record per (consumer, event) that a TTL sweep removes. */
module Idempotency {
  import opened Common

  /** Seconds a record lives before the sweep may take it. */
  const DEFAULT_TTL := 86_400

  /** Partition key to expires_at, in unix seconds. */
  type Records = map<string, int>

  function Key(consumer: string, eventId: string): string {
    "IDEMP#" + consumer + "#" + eventId
  }

  datatype Claim = RunsFn | AlreadyProcessed | Refused

  function ClaimResult(records: Records, consumer: string, eventId: string, writeFails: bool): Claim {
    if consumer == "" || eventId == "" || writeFails then Refused
    else if Key(consumer, eventId) in records then AlreadyProcessed
    else RunsFn
  }

  function AfterClaim(records: Records, consumer: string, eventId: string, now: int, writeFails: bool): Records {
    if ClaimResult(records, consumer, eventId, writeFails) == RunsFn
    then records[Key(consumer, eventId) := now + DEFAULT_TTL]
    else records
  }

  function AfterSweep(records: Records, key: string, now: int): Records {
    if key in records && records[key] <= now then records - {key} else records
  }

  class ItemsTable {
    var records: Records

    constructor ()
      ensures records == map[]
    {
      records := map[];
    }

    /** What happens before fn: the validations, then the put under attribute_not_exists(pk). */
    method WithIdempotency(consumer: string, eventId: string, now: int, writeFails: bool) returns (r: Claim)
      modifies this
      ensures r.Refused? <==> consumer == "" || eventId == "" || writeFails
      ensures r.AlreadyProcessed? <==> !r.Refused? && "IDEMP#" + consumer + "#" + eventId in old(records)
      ensures records == if r.RunsFn? then old(records)["IDEMP#" + consumer + "#" + eventId := now + 86_400] else old(records)
      ensures r == ClaimResult(old(records), consumer, eventId, writeFails)
      ensures records == AfterClaim(old(records), consumer, eventId, now, writeFails)
    {
      if consumer == "" {
        return Refused;
      }
      if eventId == "" {
        return Refused;
      }
      var pk := "IDEMP#" + consumer + "#" + eventId;
      var expiresAt := now + DEFAULT_TTL;
      if writeFails {
        return Refused;
      }
      if pk in records {
        return AlreadyProcessed;
      }
      records := records[pk := expiresAt];
      return RunsFn;
    }

    method Sweep(key: string, now: int)
      modifies this
      ensures records == if key in old(records) && old(records)[key] <= now then old(records) - {key} else old(records)
      ensures records == AfterSweep(old(records), key, now)
    {
      if key in records && records[key] <= now {
        records := records - {key};
      }
    }
  }

  /** Consumers never share a record: names free of '#' keep the keys apart for all event ids. */
  lemma {:induction false} KeyInjective(c1: string, e1: string, c2: string, e2: string)
    requires '#' !in c1 && '#' !in c2
    ensures Key(c1, e1) == Key(c2, e2) <==> c1 == c2 && e1 == e2
  {
    if Key(c1, e1) == Key(c2, e2) {
      var k1, k2 := c1 + ['#'] + e1, c2 + ['#'] + e2;
      assert Key(c1, e1) == "IDEMP#" + k1 && Key(c2, e2) == "IDEMP#" + k2;
      assert k1 == ("IDEMP#" + k1)[6..] && k2 == ("IDEMP#" + k2)[6..];
      FirstSplit(c1, '#', e1);
      FirstSplit(c2, '#', e2);
      assert c1 == k1[..|c1|] && c2 == k2[..|c2|];
      assert e1 == k1[|c1| + 1..] && e2 == k2[|c2| + 1..];
    }
  }
}
