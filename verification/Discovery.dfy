/**
 * Discovered businesses and their domains. The dedup check queries for the domain, the write that
 * follows is conditional on the fresh business id only.
 */
module Discovery {
  import opened Common
  import MergeList

  /** Business id to domain. */
  type Businesses = map<string, string>

  function NormalDomain(raw: string): string {
    Lower(MergeList.Trim(raw))
  }

  predicate Taken(rows: Businesses, domain: string) {
    exists id :: id in rows && rows[id] == domain
  }

  predicate DomainsUnique(rows: Businesses) {
    forall i, j :: i in rows && j in rows && rows[i] == rows[j] ==> i == j
  }

  class Table {
    var rows: Businesses

    constructor ()
      ensures rows == map[]
    {
      rows := map[];
    }

    method WriteBusiness(id: string, domain: string) returns (wrote: bool)
      modifies this
      ensures wrote <==> id !in old(rows)
      ensures rows == if wrote then old(rows)[id := domain] else old(rows)
    {
      if id in rows {
        return false;
      }
      rows := rows[id := domain];
      return true;
    }

    /** One business with nobody else discovering: blank and known domains are skipped. */
    method PersistOne(raw: string, id: string) returns (wrote: bool)
      modifies this
      ensures var domain := Lower(MergeList.Trim(raw));
              && (wrote <==> domain != "" && (forall other :: other in old(rows) ==> old(rows)[other] != domain) && id !in old(rows))
              && rows == if wrote then old(rows)[id := domain] else old(rows)
      // Alone it does what a worker's check and write do.
      ensures var s := Sys(old(rows), map[]);
              rows == Next(Next(s, Check(0, raw, true)), Write(0, id)).rows
      ensures DomainsUnique(old(rows)) ==> DomainsUnique(rows)
    {
      var domain := Lower(MergeList.Trim(raw));
      if domain == "" {
        return false;
      }
      if Taken(rows, domain) {
        return false;
      }
      wrote := WriteBusiness(id, domain);
    }
  }

  // ----- concurrent runs ------------------------------------------------------------------

  /** Workers past their dedup check are `cleared` for the domain they found free. */
  datatype Sys = Sys(rows: Businesses, cleared: map<nat, string>)

  const EMPTY := Sys(map[], map[])

  /** `sees` is what the index shows the check; it may trail the table. */
  datatype Step = Check(w: nat, raw: string, sees: bool) | Write(w: nat, id: string)

  function Next(s: Sys, step: Step): Sys {
    match step
    case Check(w, raw, sees) =>
      if w in s.cleared || NormalDomain(raw) == "" || (sees && Taken(s.rows, NormalDomain(raw))) then s
      else s.(cleared := s.cleared[w := NormalDomain(raw)])
    case Write(w, id) =>
      if w !in s.cleared then s
      else if id in s.rows then s.(cleared := s.cleared - {w})
      else Sys(s.rows[id := s.cleared[w]], s.cleared - {w})
  }

  function Run(s: Sys, steps: seq<Step>): Sys {
    if steps == [] then s else Next(Run(s, steps[..|steps| - 1]), steps[|steps| - 1])
  }

  /** A write keeps the domains unique exactly when the domain is still free at that instant. */
  lemma {:induction false} WriteKeepsUniqueExactly(s: Sys, w: nat, id: string)
    requires DomainsUnique(s.rows) && w in s.cleared && id !in s.rows
    ensures DomainsUnique(Next(s, Write(w, id)).rows) <==> !Taken(s.rows, s.cleared[w])
  {
    var t := Next(s, Write(w, id)).rows;
    assert t[id] == s.cleared[w];
    if Taken(s.rows, s.cleared[w]) {
      var other :| other in s.rows && s.rows[other] == s.cleared[w];
      assert t[other] == t[id];
    }
  }

  /** Businesses are never removed, so a shared domain stays shared. */
  lemma {:induction false} SharedStays(s: Sys, step: Step)
    requires !DomainsUnique(s.rows)
    ensures !DomainsUnique(Next(s, step).rows)
  {
    var i, j :| i in s.rows && j in s.rows && s.rows[i] == s.rows[j] && i != j;
    var t := Next(s, step).rows;
    assert t[i] == s.rows[i] && t[j] == s.rows[j];
  }

  // ----- which runs keep domains unique -----------------------------------------------------

  /** The state before step i. */
  function At(steps: seq<Step>, i: nat): Sys
    requires i <= |steps|
  {
    Run(EMPTY, steps[..i])
  }

  /** Step i is a check that lets its worker go on. */
  predicate Clears(steps: seq<Step>, i: nat)
    requires i < |steps|
  {
    && steps[i].Check? && steps[i].w !in At(steps, i).cleared && NormalDomain(steps[i].raw) != ""
    && !(steps[i].sees && Taken(At(steps, i).rows, NormalDomain(steps[i].raw)))
  }

  /** Step i stores this domain. */
  predicate Stores(steps: seq<Step>, i: nat, domain: string)
    requires i < |steps|
  {
    && steps[i].Write? && steps[i].w in At(steps, i).cleared && steps[i].id !in At(steps, i).rows
    && At(steps, i).cleared[steps[i].w] == domain
  }

  /** The check at j is what the worker of step i still relies on. */
  predicate CheckedAt(steps: seq<Step>, j: nat, i: nat, w: nat, domain: string)
    requires j < i <= |steps|
  {
    && Clears(steps, j) && steps[j].w == w && NormalDomain(steps[j].raw) == domain
    && forall k :: j < k < i && steps[k].Write? ==> steps[k].w != w
  }

  /** Somebody stores the domain from step j on and before step i. */
  predicate StoredBetween(steps: seq<Step>, j: nat, i: nat, domain: string)
    requires j <= i <= |steps|
  {
    exists k :: j <= k < i && Stores(steps, k, domain)
  }

  /**
   * The write at i is raced: when its worker checked, the domain was taken already and the index
   * did not show it yet, or another worker stored the domain between that check and this write.
   */
  predicate Raced(steps: seq<Step>, i: nat, domain: string)
    requires i < |steps|
  {
    steps[i].Write? &&
    exists j :: 0 <= j < i && CheckedAt(steps, j, i, steps[i].w, domain)
                && (Taken(At(steps, j).rows, domain) || StoredBetween(steps, j, i, domain))
  }

  lemma {:induction false} AtNext(steps: seq<Step>, i: nat)
    requires i < |steps|
    ensures At(steps, i + 1) == Next(At(steps, i), steps[i])
  {
    assert steps[..i + 1][..i] == steps[..i];
  }

  /** A domain is taken exactly when it was or has been stored since. */
  lemma {:induction false} TakenExactly(steps: seq<Step>, j: nat, i: nat, domain: string)
    requires j <= i <= |steps|
    ensures Taken(At(steps, i).rows, domain) <==> Taken(At(steps, j).rows, domain) || StoredBetween(steps, j, i, domain)
  {
    if j < i {
      TakenExactly(steps, j, i - 1, domain);
      TakenAtNext(steps, i - 1, domain);
      StoredBetweenNext(steps, j, i - 1, domain);
    }
  }

  lemma {:induction false} StoredBetweenNext(steps: seq<Step>, j: nat, i: nat, domain: string)
    requires j <= i < |steps|
    ensures StoredBetween(steps, j, i + 1, domain) <==> StoredBetween(steps, j, i, domain) || Stores(steps, i, domain)
  {
  }

  lemma {:induction false} TakenAtNext(steps: seq<Step>, i: nat, domain: string)
    requires i < |steps|
    ensures Taken(At(steps, i + 1).rows, domain) <==> Taken(At(steps, i).rows, domain) || Stores(steps, i, domain)
  {
    AtNext(steps, i);
    TakenNext(At(steps, i), steps[i], domain);
  }

  lemma {:induction false} TakenNext(s: Sys, step: Step, domain: string)
    ensures Taken(Next(s, step).rows, domain) <==>
            Taken(s.rows, domain)
            || (step.Write? && step.w in s.cleared && step.id !in s.rows && s.cleared[step.w] == domain)
  {
    var t := Next(s, step).rows;
    if step.Write? && step.w in s.cleared && step.id !in s.rows {
      assert t[step.id] == s.cleared[step.w];
      assert forall id :: id in s.rows ==> t[id] == s.rows[id];
    }
  }

  lemma {:induction false} ClearedNext(s: Sys, step: Step, w: nat)
    requires w in Next(s, step).cleared
    ensures w in s.cleared ==> Next(s, step).cleared[w] == s.cleared[w] && !(step.Write? && step.w == w)
    ensures w !in s.cleared ==>
              && step.Check? && step.w == w && Next(s, step).cleared[w] == NormalDomain(step.raw)
              && NormalDomain(step.raw) != "" && !(step.sees && Taken(s.rows, NormalDomain(step.raw)))
  {
  }

  lemma {:induction false} StillChecked(steps: seq<Step>, j: nat, i: nat, w: nat, domain: string)
    requires j < i < |steps| && CheckedAt(steps, j, i, w, domain) && !(steps[i].Write? && steps[i].w == w)
    ensures CheckedAt(steps, j, i + 1, w, domain)
  {
  }

  /** A cleared worker has a check it relies on. */
  lemma {:induction false} WhereCleared(steps: seq<Step>, i: nat, w: nat) returns (j: nat)
    requires i <= |steps| && w in At(steps, i).cleared
    ensures j < i && CheckedAt(steps, j, i, w, At(steps, i).cleared[w])
  {
    assert i > 0;
    AtNext(steps, i - 1);
    ClearedNext(At(steps, i - 1), steps[i - 1], w);
    if w in At(steps, i - 1).cleared {
      j := WhereCleared(steps, i - 1, w);
      StillChecked(steps, j, i - 1, w, At(steps, i).cleared[w]);
    } else {
      j := i - 1;
    }
  }

  /** So a write is raced exactly when it comes after its domain was taken. */
  lemma {:induction false} RacedExactly(steps: seq<Step>, i: nat, domain: string)
    requires i < |steps| && Stores(steps, i, domain)
    ensures Raced(steps, i, domain) <==> Taken(At(steps, i).rows, domain)
  {
    var w := steps[i].w;
    var j := WhereCleared(steps, i, w);
    TakenExactly(steps, j, i, domain);
    if Raced(steps, i, domain) {
      var k :| 0 <= k < i && CheckedAt(steps, k, i, w, domain)
               && (Taken(At(steps, k).rows, domain) || StoredBetween(steps, k, i, domain));
      TakenExactly(steps, k, i, domain);
    }
  }

  predicate NoneRaced(steps: seq<Step>, n: nat)
    requires n <= |steps|
  {
    forall i :: 0 <= i < n ==> !RacedWrite(steps, i)
  }

  predicate RacedWrite(steps: seq<Step>, i: nat)
    requires i < |steps|
  {
    && steps[i].Write? && steps[i].w in At(steps, i).cleared && steps[i].id !in At(steps, i).rows
    && Raced(steps, i, At(steps, i).cleared[steps[i].w])
  }

  lemma {:induction false} NoneRacedNext(steps: seq<Step>, n: nat)
    requires n < |steps|
    ensures NoneRaced(steps, n + 1) <==> NoneRaced(steps, n) && !RacedWrite(steps, n)
  {
  }

  lemma {:induction false} UniqueUpTo(steps: seq<Step>, n: nat)
    requires n <= |steps|
    ensures DomainsUnique(At(steps, n).rows) <==> NoneRaced(steps, n)
  {
    if n == 0 {
      assert At(steps, 0) == EMPTY;
    } else {
      var m := n - 1;
      UniqueUpTo(steps, m);
      UniqueNext(steps, m);
      NoneRacedNext(steps, m);
    }
  }

  lemma {:induction false} UniqueNext(steps: seq<Step>, n: nat)
    requires n < |steps|
    ensures DomainsUnique(At(steps, n + 1).rows) <==> DomainsUnique(At(steps, n).rows) && !RacedWrite(steps, n)
  {
    AtNext(steps, n);
    var s, step := At(steps, n), steps[n];
    if !DomainsUnique(s.rows) {
      SharedStays(s, step);
    } else if step.Write? && step.w in s.cleared && step.id !in s.rows {
      WriteKeepsUniqueExactly(s, step.w, step.id);
      RacedExactly(steps, n, s.cleared[step.w]);
    }
  }

  /** In every run the domains are unique if and only if no write was raced. */
  lemma {:induction false} UniqueExactly(steps: seq<Step>)
    ensures DomainsUnique(Run(EMPTY, steps).rows) <==> NoneRaced(steps, |steps|)
  {
    UniqueUpTo(steps, |steps|);
    assert steps[..|steps|] == steps;
  }

  /** Two workers that both check before either writes store one domain twice, under any two ids. */
  lemma {:induction false} RaceStoresTwice(raw: string, a: string, b: string)
    requires NormalDomain(raw) != "" && a != b
    ensures var both := Next(Next(EMPTY, Check(0, raw, true)), Check(1, raw, true));
            !DomainsUnique(Next(Next(both, Write(0, a)), Write(1, b)).rows)
  {
    var both := Next(Next(EMPTY, Check(0, raw, true)), Check(1, raw, true));
    var t := Next(Next(both, Write(0, a)), Write(1, b)).rows;
    assert t == map[a := NormalDomain(raw), b := NormalDomain(raw)];
    assert t[a] == t[b];
  }
}
