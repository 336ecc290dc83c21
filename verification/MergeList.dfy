/** The list merge a tuner delta applies: append without duplicates, then remove. */
module MergeList {
  import opened Common

  function TrimLeft(s: string): (r: string)
    ensures r != "" ==> !IsSpace(r[0])
    ensures |r| <= |s|
  {
    if s != "" && IsSpace(s[0]) then TrimLeft(s[1..]) else s
  }

  function TrimRight(s: string): (r: string)
    ensures r != "" ==> !IsSpace(r[|r| - 1])
    ensures |r| <= |s|
    ensures r <= s
  {
    if s != "" && IsSpace(s[|s| - 1]) then TrimRight(s[..|s| - 1]) else s
  }

  /** strings.TrimSpace. */
  function Trim(s: string): string {
    TrimRight(TrimLeft(s))
  }

  lemma {:induction false} TrimLeftCuts(s: string)
    ensures var r := TrimLeft(s); s[|s| - |r|..] == r && forall k :: 0 <= k < |s| - |r| ==> IsSpace(s[k])
  {
    if s != "" && IsSpace(s[0]) {
      TrimLeftCuts(s[1..]);
      assert forall k :: 0 < k < |s| ==> s[k] == s[1..][k - 1];
    }
  }

  lemma {:induction false} TrimRightCuts(s: string)
    ensures var r := TrimRight(s); s[..|r|] == r && forall k :: |r| <= k < |s| ==> IsSpace(s[k])
  {
    if s != "" && IsSpace(s[|s| - 1]) {
      TrimRightCuts(s[..|s| - 1]);
    }
  }

  /** Only white space is cut, at both ends, and none is left there. */
  lemma {:induction false} TrimCuts(s: string) returns (at: nat)
    ensures var r := Trim(s);
            && at + |r| <= |s| && s[at..at + |r|] == r
            && (forall k :: 0 <= k < |s| && !(at <= k < at + |r|) ==> IsSpace(s[k]))
            && (r != "" ==> !IsSpace(r[0]) && !IsSpace(r[|r| - 1]))
  {
    var t := TrimLeft(s);
    at := |s| - |t|;
    TrimLeftCuts(s);
    TrimRightCuts(t);
    var r := TrimRight(t);
    assert s[at..] == t && t[..|r|] == r;
    assert s[at..at + |r|] == t[..|r|];
    assert forall k :: at <= k < |s| ==> s[k] == t[k - at];
  }

  lemma {:induction false} TrimTwice(s: string)
    ensures Trim(Trim(s)) == Trim(s)
  {
    var t := TrimLeft(s);
    var r := TrimRight(t);
    assert r != "" ==> r[0] == t[0];
  }

  function Keep(out: seq<string>, s: string): seq<string> {
    var t := Trim(s);
    if t == "" || t in out then out else out + [t]
  }

  function KeepAll(out: seq<string>, xs: seq<string>): seq<string> {
    if xs == [] then out else Keep(KeepAll(out, xs[..|xs| - 1]), xs[|xs| - 1])
  }

  function Trimmed(xs: seq<string>): set<string> {
    set i | 0 <= i < |xs| :: Trim(xs[i])
  }

  function Filter(xs: seq<string>, drop: set<string>): seq<string> {
    if xs == [] then []
    else Filter(xs[..|xs| - 1], drop) + if xs[|xs| - 1] in drop then [] else [xs[|xs| - 1]]
  }

  function Merged(cur: seq<string>, add: seq<string>, remove: seq<string>): seq<string> {
    Filter(KeepAll(KeepAll([], cur), add), Trimmed(remove))
  }

  /** The code itself: a slice that grows, a seen map, and a compaction in place. */
  method MergeLists(cur: seq<string>, add: seq<string>, remove: seq<string>) returns (merged: seq<string>)
    ensures IsMerge(cur, add, remove, merged)
    ensures merged == Merged(cur, add, remove)
  {
    MergedIsMerge(cur, add, remove);
    var out := new string[|cur| + |add|];
    var n, seen := AppendKept(out, 0, {}, cur);
    n, seen := AppendKept(out, n, seen, add);
    if |remove| == 0 {
      FilterNothing(out[..n]);
      assert Trimmed(remove) == {};
      return out[..n];
    }
    var drop := TrimmedSet(remove);
    var m := Compact(out, n, drop);
    return out[..m];
  }

  method AppendKept(out: array<string>, start: nat, seen0: set<string>, xs: seq<string>) returns (n: nat, seen: set<string>)
    requires start + |xs| <= out.Length
    requires forall s :: s in seen0 <==> s in out[..start]
    modifies out
    ensures n <= start + |xs|
    ensures out[..n] == KeepAll(old(out[..start]), xs)
    ensures forall s :: s in seen <==> s in out[..n]
  {
    n, seen := start, seen0;
    var i := 0;
    while i < |xs|
      invariant 0 <= i <= |xs| && n <= start + i
      invariant out[..n] == KeepAll(old(out[..start]), xs[..i])
      invariant forall s :: s in seen <==> s in out[..n]
    {
      var s := Trim(xs[i]);
      assert xs[..i + 1][..i] == xs[..i];
      if s != "" && s !in seen {
        seen := seen + {s};
        out[n] := s;
        n := n + 1;
        assert out[..n] == out[..n - 1] + [s];
      }
      i := i + 1;
    }
    assert xs[..i] == xs;
  }

  method TrimmedSet(remove: seq<string>) returns (drop: set<string>)
    ensures drop == Trimmed(remove)
  {
    drop := {};
    var i := 0;
    while i < |remove|
      invariant 0 <= i <= |remove|
      invariant drop == Trimmed(remove[..i])
    {
      TrimmedSnoc(remove[..i], remove[i]);
      assert remove[..i + 1] == remove[..i] + [remove[i]];
      drop := drop + {Trim(remove[i])};
      i := i + 1;
    }
    assert remove[..i] == remove;
  }

  method Compact(out: array<string>, n: nat, drop: set<string>) returns (m: nat)
    requires n <= out.Length
    modifies out
    ensures m <= n && out[..m] == Filter(old(out[..n]), drop)
  {
    ghost var kept := out[..n];
    m := 0;
    var i := 0;
    while i < n
      invariant 0 <= m <= i <= n
      invariant out[..m] == Filter(kept[..i], drop)
      invariant forall j :: i <= j < n ==> out[j] == kept[j]
    {
      assert kept[..i + 1][..i] == kept[..i];
      if out[i] !in drop {
        out[m] := out[i];
        m := m + 1;
        assert out[..m] == out[..m - 1] + [kept[i]];
      }
      i := i + 1;
    }
    assert kept[..i] == kept;
  }

  lemma {:induction false} TrimmedSnoc(xs: seq<string>, s: string)
    ensures Trimmed(xs + [s]) == Trimmed(xs) + {Trim(s)}
  {
    var ys := xs + [s];
    assert ys[|xs|] == s;
    forall i | 0 <= i < |xs|
      ensures Trim(xs[i]) in Trimmed(ys)
    {
      assert ys[i] == xs[i];
    }
  }

  // ----- what a merged list is ---------------------------------------------------------

  /** Trimmed, non-blank, without repetition. */
  predicate Normal(xs: seq<string>) {
    && (forall i :: 0 <= i < |xs| ==> xs[i] != "" && Trim(xs[i]) == xs[i])
    && (forall i, j :: 0 <= i < j < |xs| ==> xs[i] != xs[j])
  }

  lemma {:induction false} KeepAllNormal(out: seq<string>, xs: seq<string>)
    requires Normal(out)
    ensures Normal(KeepAll(out, xs)) && out <= KeepAll(out, xs)
    ensures forall s :: s in KeepAll(out, xs) <==> s in out || (s in Trimmed(xs) && s != "")
  {
    if xs != [] {
      var init, last := xs[..|xs| - 1], xs[|xs| - 1];
      KeepAllNormal(out, init);
      TrimTwice(last);
      TrimmedSnoc(init, last);
      assert xs == init + [last];
    }
  }

  lemma {:induction false} FilterNormal(xs: seq<string>, drop: set<string>)
    requires Normal(xs)
    ensures Normal(Filter(xs, drop))
    ensures forall s :: s in Filter(xs, drop) <==> s in xs && s !in drop
  {
    if xs != [] {
      var init := xs[..|xs| - 1];
      FilterNormal(init, drop);
      assert xs == init + [xs[|xs| - 1]];
      assert forall s :: s in xs <==> s in init || s == xs[|xs| - 1];
    }
  }

  lemma {:induction false} FilterNothing(xs: seq<string>)
    ensures Filter(xs, {}) == xs
  {
    if xs != [] {
      FilterNothing(xs[..|xs| - 1]);
    }
  }

  /** The merged list holds exactly the non-blank entries of both lists that are not removed, once each. */
  lemma {:induction false} MergedMembers(cur: seq<string>, add: seq<string>, remove: seq<string>)
    ensures Normal(Merged(cur, add, remove))
    ensures forall s :: s in Merged(cur, add, remove) <==>
              s != "" && (s in Trimmed(cur) || s in Trimmed(add)) && s !in Trimmed(remove)
  {
    KeepAllNormal([], cur);
    KeepAllNormal(KeepAll([], cur), add);
    FilterNormal(KeepAll(KeepAll([], cur), add), Trimmed(remove));
  }

  lemma {:induction false} FilterConcat(xs: seq<string>, ys: seq<string>, drop: set<string>)
    ensures Filter(xs + ys, drop) == Filter(xs, drop) + Filter(ys, drop)
  {
    if ys == [] {
      assert xs + ys == xs;
    } else {
      FilterConcat(xs, ys[..|ys| - 1], drop);
      assert (xs + ys)[..|xs + ys| - 1] == xs + ys[..|ys| - 1];
    }
  }

  lemma {:induction false} FilterKeepsAll(xs: seq<string>, drop: set<string>)
    requires forall s :: s in xs ==> s !in drop
    ensures Filter(xs, drop) == xs
  {
    if xs != [] {
      FilterKeepsAll(xs[..|xs| - 1], drop);
    }
  }

  lemma {:induction false} FilterDropsAll(xs: seq<string>, drop: set<string>)
    requires forall s :: s in xs ==> s in drop
    ensures Filter(xs, drop) == []
  {
    if xs != [] {
      FilterDropsAll(xs[..|xs| - 1], drop);
    }
  }

  lemma {:induction false} NormalKept(xs: seq<string>)
    requires Normal(xs)
    ensures KeepAll([], xs) == xs
  {
    if xs != [] {
      var init := xs[..|xs| - 1];
      NormalKept(init);
      assert xs == init + [xs[|xs| - 1]];
      assert forall i :: 0 <= i < |init| ==> init[i] == xs[i] != xs[|xs| - 1];
    }
  }

  lemma {:induction false} GrowthIsNew(base: seq<string>, extra: seq<string>)
    requires Normal(base + extra)
    ensures forall s :: s in extra ==> s in base + extra && s !in base
  {
    var all := base + extra;
    forall i, j | 0 <= i < |base| && 0 <= j < |extra|
      ensures base[i] != extra[j]
    {
      assert all[i] != all[|base| + j];
    }
  }

  /** Applying the same delta to its own result changes nothing. */
  lemma {:induction false} MergeIdempotent(cur: seq<string>, add: seq<string>, remove: seq<string>)
    ensures Merged(Merged(cur, add, remove), add, remove) == Merged(cur, add, remove)
  {
    var m, drop := Merged(cur, add, remove), Trimmed(remove);
    MergedMembers(cur, add, remove);
    NormalKept(m);
    KeepAllNormal(m, add);
    var grown := KeepAll(m, add);
    var extra := grown[|m|..];
    assert grown == m + extra;
    GrowthIsNew(m, extra);
    FilterConcat(m, extra, drop);
    FilterKeepsAll(m, drop);
    FilterDropsAll(extra, drop);
  }

  /** The list that was there keeps its order in front of what is added. */
  lemma {:induction false} MergeKeepsOrder(cur: seq<string>, add: seq<string>, remove: seq<string>)
    ensures Filter(KeepAll([], cur), Trimmed(remove)) <= Merged(cur, add, remove)
  {
    KeepAllNormal([], cur);
    var base := KeepAll([], cur);
    KeepAllNormal(base, add);
    var all := KeepAll(base, add);
    assert all == base + all[|base|..];
    FilterConcat(base, all[|base|..], Trimmed(remove));
  }

  // ----- the merged list, told apart from how it is built ---------------------------------

  /** Along these entries, trimmed, x occurs before any y. */
  predicate Precedes(all: seq<string>, x: string, y: string) {
    exists m :: 0 <= m < |all| && Trim(all[m]) == x && forall n :: 0 <= n <= m ==> Trim(all[n]) != y
  }

  /** The list follows the order in which its entries first occur along these. */
  predicate InOrder(list: seq<string>, all: seq<string>) {
    forall i, j :: 0 <= i < j < |list| ==> Precedes(all, list[i], list[j])
  }

  /** One of the entries reads so when trimmed. */
  predicate Occurs(all: seq<string>, x: string) {
    exists m :: 0 <= m < |all| && Trim(all[m]) == x
  }

  /**
   * What was there and what is added, trimmed, without blanks, repetitions and what is removed,
   * in the order of first occurrence, so that what was there and stays comes first.
   */
  ghost predicate IsMerge(before: seq<string>, add: seq<string>, remove: seq<string>, after: seq<string>) {
    && (forall i, j :: 0 <= i < j < |after| ==> after[i] != after[j])
    && (forall x :: x in after <==> x != "" && (Occurs(before, x) || Occurs(add, x)) && !Occurs(remove, x))
    && InOrder(after, before + add)
  }

  lemma {:induction false} PrecedesLonger(all: seq<string>, more: seq<string>, x: string, y: string)
    requires Precedes(all, x, y)
    ensures Precedes(all + more, x, y)
  {
    var m :| 0 <= m < |all| && Trim(all[m]) == x && forall n :: 0 <= n <= m ==> Trim(all[n]) != y;
    assert forall n :: 0 <= n <= m ==> (all + more)[n] == all[n];
  }

  lemma {:induction false} NewComesLast(all: seq<string>, last: string, x: string)
    requires Occurs(all, x) && !Occurs(all, Trim(last))
    ensures Precedes(all + [last], x, Trim(last))
  {
    var m :| 0 <= m < |all| && Trim(all[m]) == x;
    assert forall n :: 0 <= n <= m ==> (all + [last])[n] == all[n];
  }

  lemma {:induction false} OccursIsTrimmed(all: seq<string>, x: string)
    ensures Occurs(all, x) <==> x in Trimmed(all)
  {
  }

  lemma {:induction false} KeptInOrder(xs: seq<string>)
    ensures InOrder(KeepAll([], xs), xs)
  {
    if xs != [] {
      var init, last := xs[..|xs| - 1], xs[|xs| - 1];
      var out, longer := KeepAll([], init), KeepAll([], xs);
      assert xs == init + [last];
      KeptInOrder(init);
      KeepAllNormal([], init);
      forall i, j | 0 <= i < j < |longer| ensures Precedes(xs, longer[i], longer[j]) {
        if j < |out| {
          PrecedesLonger(init, [last], out[i], out[j]);
        } else {
          OccursIsTrimmed(init, out[i]);
          OccursIsTrimmed(init, Trim(last));
          NewComesLast(init, last, out[i]);
        }
      }
    }
  }

  lemma {:induction false} FilteredInOrder(xs: seq<string>, drop: set<string>, all: seq<string>)
    requires InOrder(xs, all)
    ensures InOrder(Filter(xs, drop), all)
    ensures forall x :: x in Filter(xs, drop) ==> x in xs
  {
    if xs != [] {
      var init, last := xs[..|xs| - 1], xs[|xs| - 1];
      FilteredInOrder(init, drop, all);
      forall x | x in init ensures Precedes(all, x, last) {
        var i :| 0 <= i < |init| && init[i] == x;
        assert xs[i] == x;
      }
    }
  }

  lemma {:induction false} KeepAllConcat(out: seq<string>, xs: seq<string>, ys: seq<string>)
    ensures KeepAll(KeepAll(out, xs), ys) == KeepAll(out, xs + ys)
  {
    if ys == [] {
      assert xs + ys == xs;
    } else {
      KeepAllConcat(out, xs, ys[..|ys| - 1]);
      assert (xs + ys)[..|xs + ys| - 1] == xs + ys[..|ys| - 1];
    }
  }

  lemma {:induction false} MergedIsMerge(cur: seq<string>, add: seq<string>, remove: seq<string>)
    ensures IsMerge(cur, add, remove, Merged(cur, add, remove))
  {
    var m := Merged(cur, add, remove);
    MergedMembers(cur, add, remove);
    forall x ensures x in m <==> x != "" && (Occurs(cur, x) || Occurs(add, x)) && !Occurs(remove, x) {
      OccursIsTrimmed(cur, x);
      OccursIsTrimmed(add, x);
      OccursIsTrimmed(remove, x);
    }
    KeepAllConcat([], cur, add);
    KeptInOrder(cur + add);
    FilteredInOrder(KeepAll([], cur + add), Trimmed(remove), cur + add);
  }
}
