/** The cookie Domain shared by the single-page app's host and its backend's: their common dotted suffix. */
module CookieDomain {
  import opened Common

  // ----- labels -----------------------------------------------------------------------------

  /** host.split('.'). */
  function Split(host: string): (labels: seq<string>)
    ensures |labels| >= 1
    decreases |host|
  {
    var dot := IndexOfChar(host, '.');
    if dot < 0 then [host] else [host[..dot]] + Split(host[dot + 1..])
  }

  predicate Labels(labels: seq<string>) {
    forall i :: 0 <= i < |labels| ==> '.' !in labels[i]
  }

  lemma {:induction false} SplitGivesLabels(host: string)
    ensures Labels(Split(host))
    decreases |host|
  {
    var dot := IndexOfChar(host, '.');
    if dot >= 0 {
      SplitGivesLabels(host[dot + 1..]);
      assert '.' !in host[..dot];
    }
  }

  /** labels.join('.'). */
  function JoinDots(labels: seq<string>): string {
    if labels == [] then ""
    else if |labels| == 1 then labels[0]
    else labels[0] + "." + JoinDots(labels[1..])
  }

  lemma {:induction false} JoinFront(first: string, labels: seq<string>)
    requires labels != []
    ensures JoinDots([first] + labels) == first + "." + JoinDots(labels)
  {
    assert ([first] + labels)[1..] == labels;
  }

  lemma {:induction false} CutAt(host: string, dot: nat)
    requires dot < |host| && host[dot] == '.'
    ensures host == host[..dot] + "." + host[dot + 1..]
  {
  }

  lemma {:induction false} JoinSplit(host: string)
    ensures JoinDots(Split(host)) == host
    decreases |host|
  {
    var dot := IndexOfChar(host, '.');
    if dot >= 0 {
      JoinSplit(host[dot + 1..]);
      JoinFront(host[..dot], Split(host[dot + 1..]));
      CutAt(host, dot);
    }
  }

  lemma {:induction false} SplitFront(first: string, rest: string)
    requires '.' !in first
    ensures Split(first + "." + rest) == [first] + Split(rest)
  {
    var s := first + "." + rest;
    FirstSplit(first, '.', rest);
    assert s == first + ['.'] + rest;
    assert s[..|first|] == first && s[|first| + 1..] == rest;
  }

  lemma {:induction false} SplitJoin(labels: seq<string>)
    requires labels != [] && Labels(labels)
    ensures Split(JoinDots(labels)) == labels
  {
    if |labels| == 1 {
      assert labels == [labels[0]];
    } else {
      SplitJoin(labels[1..]);
      SplitFront(labels[0], JoinDots(labels[1..]));
      assert labels == [labels[0]] + labels[1..];
    }
  }

  lemma {:induction false} JoinAppend(a: seq<string>, b: seq<string>)
    requires a != [] && b != []
    ensures JoinDots(a + b) == JoinDots(a) + "." + JoinDots(b)
  {
    if |a| == 1 {
      assert (a + b)[1..] == b;
    } else {
      JoinAppend(a[1..], b);
      assert (a + b)[1..] == a[1..] + b;
      assert a[0] + "." + (JoinDots(a[1..]) + "." + JoinDots(b)) == JoinDots(a) + "." + JoinDots(b);
    }
  }

  // ----- the shared suffix ----------------------------------------------------------------------

  const TWO_LEVEL_SUFFIXES := {
    "co.uk", "org.uk", "gov.uk", "ac.uk", "com.au", "net.au", "org.au", "co.nz", "co.za", "com.br"
  }

  predicate IsSuffix(s: seq<string>, of: seq<string>) {
    |s| <= |of| && of[|of| - |s|..] == s
  }

  /** s ends both lists, and no longer list does. */
  ghost predicate LongestShared(s: seq<string>, a: seq<string>, b: seq<string>) {
    IsSuffix(s, a) && IsSuffix(s, b) && forall t :: IsSuffix(t, a) && IsSuffix(t, b) ==> |t| <= |s|
  }

  lemma {:induction false} SuffixAt(s: seq<string>, of: seq<string>)
    requires IsSuffix(s, of)
    ensures forall m :: |of| - |s| <= m < |of| ==> of[m] == s[m - (|of| - |s|)]
  {
    assert forall m :: |of| - |s| <= m < |of| ==> of[m] == of[|of| - |s|..][m - (|of| - |s|)];
  }

  lemma {:induction false} SuffixesNest(s: seq<string>, t: seq<string>, of: seq<string>)
    requires IsSuffix(s, of) && IsSuffix(t, of) && |s| <= |t|
    ensures IsSuffix(s, t)
  {
    assert t[|t| - |s|..] == of[|of| - |s|..];
  }

  lemma {:induction false} LongestUnique(s: seq<string>, t: seq<string>, a: seq<string>, b: seq<string>)
    requires LongestShared(s, a, b) && LongestShared(t, b, a)
    ensures s == t
  {
    assert |s| == |t|;
  }

  /** The last two labels are a listed public suffix. */
  predicate TwoLevel(shared: seq<string>, listed: set<string>) {
    JoinDots(if |shared| < 2 then shared else shared[|shared| - 2..]) in listed
  }

  /** Two labels at least, three when the tail is a listed public suffix. */
  predicate Usable(shared: seq<string>, listed: set<string>) {
    |shared| >= if TwoLevel(shared, listed) then 3 else 2
  }

  function Chosen(shared: seq<string>, listed: set<string>): string {
    if Usable(shared, listed) then JoinDots(shared) else ""
  }

  /** The answer, given the longest shared list of labels. */
  ghost predicate Answers(domain: string, spaHost: string, bffHost: string, listed: set<string>) {
    if spaHost == "" || bffHost == "" || spaHost == bffHost then domain == ""
    else
      exists shared :: LongestShared(shared, Split(spaHost), Split(bffHost)) && domain == Chosen(shared, listed)
  }

  /** Walks both lists from the back. */
  method SharedLabels(a: seq<string>, b: seq<string>) returns (shared: seq<string>)
    requires a != [] && b != []
    ensures LongestShared(shared, a, b)
  {
    shared := [];
    var i, j := |a| - 1, |b| - 1;
    while i >= 0 && j >= 0 && a[i] == b[j]
      invariant -1 <= i < |a| && -1 <= j < |b|
      invariant shared == a[i + 1..] == b[j + 1..]
      decreases i
    {
      assert a[i..] == [a[i]] + a[i + 1..] && b[j..] == [b[j]] + b[j + 1..];
      shared := [a[i]] + shared;
      i, j := i - 1, j - 1;
    }
    SharedIsLongest(a, b, i, j);
  }

  /** `listed` is TWO_LEVEL_SUFFIXES; nothing but membership in it is asked. */
  method CookieScopeDomain(spaHost: string, bffHost: string, listed: set<string>) returns (domain: string)
    ensures Answers(domain, spaHost, bffHost, listed)
  {
    if spaHost == "" || bffHost == "" || spaHost == bffHost {
      return "";
    }
    var shared := SharedLabels(Split(spaHost), Split(bffHost));
    var tail := if |shared| < 2 then shared else shared[|shared| - 2..];
    var minLabels := if JoinDots(tail) in listed then 3 else 2;
    domain := if |shared| >= minLabels then JoinDots(shared) else "";
    assert domain == Chosen(shared, listed);
  }

  /** Where the walk from the back stops, nothing longer is shared. */
  lemma {:induction false} SharedIsLongest(a: seq<string>, b: seq<string>, i: int, j: int)
    requires -1 <= i < |a| && -1 <= j < |b| && a[i + 1..] == b[j + 1..]
    requires i < 0 || j < 0 || a[i] != b[j]
    ensures LongestShared(a[i + 1..], a, b)
  {
    var s := a[i + 1..];
    assert |s| == |a| - 1 - i == |b| - 1 - j;
    forall t | IsSuffix(t, a) && IsSuffix(t, b) ensures |t| <= |s| {
      SuffixAt(t, a);
      SuffixAt(t, b);
    }
  }

  /** The answer does not depend on which host is which. */
  lemma {:induction false} Symmetric(x: string, y: string, listed: set<string>, d: string, e: string)
    requires Answers(d, x, y, listed) && Answers(e, y, x, listed)
    ensures d == e
  {
    if x != "" && y != "" && x != y {
      var s :| LongestShared(s, Split(x), Split(y)) && d == Chosen(s, listed);
      var t :| LongestShared(t, Split(y), Split(x)) && e == Chosen(t, listed);
      LongestUnique(s, t, Split(x), Split(y));
    }
  }

  /** Section 5.1.3 of RFC 6265, for host names: the domain itself, or what ends in a dot and it. */
  predicate DomainMatches(host: string, domain: string) {
    host == domain || (|host| > |domain| && host[|host| - |domain| - 1..] == "." + domain)
  }

  lemma {:induction false} EndMatches(front: string, domain: string)
    ensures DomainMatches(front + ("." + domain), domain)
  {
    var host := front + ("." + domain);
    assert host[|front|..] == "." + domain;
  }

  lemma {:induction false} SuffixMatches(host: string, shared: seq<string>)
    requires shared != [] && IsSuffix(shared, Split(host))
    ensures DomainMatches(host, JoinDots(shared))
  {
    var labels := Split(host);
    var front := labels[..|labels| - |shared|];
    assert JoinDots(front + shared) == host by {
      assert labels == front + shared;
      JoinSplit(host);
    }
    JoinedMatches(front, shared);
  }

  lemma {:induction false} JoinedMatches(front: seq<string>, shared: seq<string>)
    requires shared != []
    ensures DomainMatches(JoinDots(front + shared), JoinDots(shared))
  {
    if front == [] {
      assert front + shared == shared;
    } else {
      JoinAppend(front, shared);
      EndMatches(JoinDots(front), JoinDots(shared));
      assert JoinDots(front) + ("." + JoinDots(shared)) == JoinDots(front) + "." + JoinDots(shared);
    }
  }

  lemma {:induction false} SplitOfJoined(a: seq<string>, b: seq<string>)
    requires a != [] && b != [] && Labels(a) && Labels(b)
    ensures Split(JoinDots(a) + "." + JoinDots(b)) == a + b
  {
    JoinAppend(a, b);
    SplitJoin(a + b);
  }

  lemma {:induction false} SplitConcat(front: string, domain: string)
    ensures Split(front + "." + domain) == Split(front) + Split(domain)
  {
    JoinSplit(front);
    JoinSplit(domain);
    SplitGivesLabels(front);
    SplitGivesLabels(domain);
    SplitOfJoined(Split(front), Split(domain));
  }

  /** Conversely, a domain that matches a host is a suffix of its labels. */
  lemma {:induction false} MatchIsSuffix(host: string, domain: string)
    requires DomainMatches(host, domain)
    ensures IsSuffix(Split(domain), Split(host))
  {
    if host != domain {
      var front := host[..|host| - |domain| - 1];
      assert host == front + "." + domain;
      SplitConcat(front, domain);
    }
  }

  lemma {:induction false} AnswerIsShared(domain: string, spaHost: string, bffHost: string, listed: set<string>)
    returns (shared: seq<string>)
    requires Answers(domain, spaHost, bffHost, listed) && domain != ""
    ensures LongestShared(shared, Split(spaHost), Split(bffHost)) && Labels(shared) && |shared| >= 2
    ensures Usable(shared, listed) && domain == JoinDots(shared)
  {
    shared :| LongestShared(shared, Split(spaHost), Split(bffHost)) && domain == Chosen(shared, listed);
    SuffixOfLabels(shared, spaHost);
  }

  /**
   * A non-empty answer matches both hosts, has at least two labels, and is none of the listed
   * public suffixes.
   */
  lemma {:induction false} SharedDomain(domain: string, spaHost: string, bffHost: string, listed: set<string>)
    requires forall s :: s in listed ==> |Split(s)| == 2
    requires Answers(domain, spaHost, bffHost, listed) && domain != ""
    ensures DomainMatches(spaHost, domain) && DomainMatches(bffHost, domain)
    ensures |Split(domain)| >= 2 && domain !in listed
  {
    var shared := AnswerIsShared(domain, spaHost, bffHost, listed);
    SuffixMatches(spaHost, shared);
    SuffixMatches(bffHost, shared);
    SplitJoin(shared);
    TwoNotListed(shared, listed);
  }

  lemma {:induction false} TwoNotListed(shared: seq<string>, listed: set<string>)
    requires |shared| >= 2 && Usable(shared, listed)
    ensures |shared| == 2 ==> JoinDots(shared) !in listed
  {
    assert |shared| == 2 ==> shared[|shared| - 2..] == shared;
  }

  /** It is the longest: every domain that matches both hosts matches it. */
  lemma {:induction false} SharedDomainIsLongest(
      domain: string, spaHost: string, bffHost: string, listed: set<string>, other: string)
    requires Answers(domain, spaHost, bffHost, listed) && domain != ""
    requires DomainMatches(spaHost, other) && DomainMatches(bffHost, other)
    ensures DomainMatches(domain, other)
  {
    var shared := AnswerIsShared(domain, spaHost, bffHost, listed);
    MatchIsSuffix(spaHost, other);
    MatchIsSuffix(bffHost, other);
    SuffixesNest(Split(other), shared, Split(spaHost));
    SplitJoin(shared);
    SuffixMatches(domain, Split(other));
    JoinSplit(other);
  }

  lemma {:induction false} SuffixOfLabels(shared: seq<string>, host: string)
    requires IsSuffix(shared, Split(host))
    ensures Labels(shared)
  {
    SplitGivesLabels(host);
    assert forall i :: 0 <= i < |shared| ==> shared[i] == Split(host)[|Split(host)| - |shared| + i];
  }

  lemma {:induction false} TwoLabels(s: string, x: string, y: string)
    requires '.' !in x && '.' !in y && s == x + "." + y
    ensures |Split(s)| == 2
  {
    assert JoinDots([x]) == x && JoinDots([y]) == y;
    SplitOfJoined([x], [y]);
  }

  /** The list the program uses meets SharedDomain's condition. */
  lemma {:induction false} ListedHaveTwoLabels(s: string)
    requires s in TWO_LEVEL_SUFFIXES
    ensures |Split(s)| == 2
  {
    if s == "co.uk" {
      TwoLabels(s, "co", "uk");
    } else if s == "org.uk" {
      TwoLabels(s, "org", "uk");
    } else if s == "gov.uk" {
      TwoLabels(s, "gov", "uk");
    } else if s == "ac.uk" {
      TwoLabels(s, "ac", "uk");
    } else if s == "com.au" {
      TwoLabels(s, "com", "au");
    } else if s == "net.au" {
      TwoLabels(s, "net", "au");
    } else if s == "org.au" {
      TwoLabels(s, "org", "au");
    } else if s == "co.nz" {
      TwoLabels(s, "co", "nz");
    } else if s == "co.za" {
      TwoLabels(s, "co", "za");
    } else {
      TwoLabels(s, "com", "br");
    }
  }

  lemma {:induction false} ChosenOfTwo(x: string, y: string, listed: set<string>)
    ensures JoinDots([x, y]) == x + "." + y
    ensures Chosen([x, y], listed) == if x + "." + y in listed then "" else x + "." + y
  {
    assert [x, y][1..] == [y] && JoinDots([y]) == y;
    assert [x, y][|[x, y]| - 2..] == [x, y];
  }

  /** Both lists have n last elements, the same ones. */
  predicate EndAlike(a: seq<string>, b: seq<string>, n: nat) {
    |a| >= n && |b| >= n && a[|a| - n..] == b[|b| - n..]
  }

  lemma {:induction false} SharedEndsAlike(shared: seq<string>, a: seq<string>, b: seq<string>, n: nat)
    requires IsSuffix(shared, a) && IsSuffix(shared, b) && n <= |shared|
    ensures EndAlike(a, b, n) && a[|a| - n..] == shared[|shared| - n..]
  {
    SuffixAt(shared, a);
    SuffixAt(shared, b);
  }

  lemma {:induction false} SharedEnds(shared: seq<string>, a: seq<string>, b: seq<string>, n: nat)
    requires LongestShared(shared, a, b)
    ensures EndAlike(a, b, n) <==> n <= |shared|
  {
    if n <= |shared| {
      SharedEndsAlike(shared, a, b, n);
    }
    assert EndAlike(a, b, n) ==> IsSuffix(a[|a| - n..], a) && IsSuffix(a[|a| - n..], b);
  }

  lemma {:induction false} ChosenIsUsable(shared: seq<string>, listed: set<string>)
    ensures Chosen(shared, listed) != "" <==> Usable(shared, listed)
  {
    if |shared| >= 2 {
      assert JoinDots(shared) == shared[0] + "." + JoinDots(shared[1..]);
      assert |JoinDots(shared)| >= 1;
    }
  }

  lemma {:induction false} UsableByTail(shared: seq<string>, tail: seq<string>, listed: set<string>)
    requires |shared| >= 2 ==> tail == shared[|shared| - 2..]
    ensures Usable(shared, listed) <==> |shared| >= 2 && (JoinDots(tail) !in listed || |shared| >= 3)
  {
  }

  lemma {:induction false} ChosenExactly(shared: seq<string>, a: seq<string>, b: seq<string>, listed: set<string>)
    requires LongestShared(shared, a, b)
    ensures Chosen(shared, listed) != "" <==>
            EndAlike(a, b, 2) && (JoinDots(a[|a| - 2..]) !in listed || EndAlike(a, b, 3))
  {
    SharedEnds(shared, a, b, 2);
    SharedEnds(shared, a, b, 3);
    ChosenIsUsable(shared, listed);
    if |shared| >= 2 {
      SharedEndsAlike(shared, a, b, 2);
      UsableByTail(shared, a[|a| - 2..], listed);
    }
  }

  /**
   * Exactly which hosts get a domain: those whose last two labels agree, and the last three where
   * the last two are a listed suffix. IP addresses are labels like any other.
   */
  lemma {:induction false} DomainExactly(domain: string, spaHost: string, bffHost: string, listed: set<string>)
    requires spaHost != "" && bffHost != "" && spaHost != bffHost
    requires Answers(domain, spaHost, bffHost, listed)
    ensures var a, b := Split(spaHost), Split(bffHost);
            domain != "" <==> EndAlike(a, b, 2) && (JoinDots(a[|a| - 2..]) !in listed || EndAlike(a, b, 3))
  {
    var a, b := Split(spaHost), Split(bffHost);
    var shared :| LongestShared(shared, a, b) && domain == Chosen(shared, listed);
    ChosenExactly(shared, a, b, listed);
  }

  /**
   * An address is split like a name: two of them whose last two parts agree, and no more, get
   * those two parts as a domain unless they are listed.
   */
  lemma {:induction false} LastTwoParts(a: seq<string>, b: seq<string>, x: string, y: string, listed: set<string>)
    requires a != [] && b != [] && Labels(a) && Labels(b) && '.' !in x && '.' !in y
    requires a[|a| - 1] != b[|b| - 1]
    ensures Answers(
              if x + "." + y in listed then "" else x + "." + y,
              JoinDots(a) + "." + (x + "." + y), JoinDots(b) + "." + (x + "." + y), listed)
  {
    ChosenOfTwo(x, y, listed);
    SharedTailAnswers(a, b, [x, y], listed);
  }

  lemma {:induction false} SharedTailAnswers(a: seq<string>, b: seq<string>, tail: seq<string>, listed: set<string>)
    requires a != [] && b != [] && tail != [] && Labels(a) && Labels(b) && Labels(tail)
    requires a[|a| - 1] != b[|b| - 1]
    ensures Answers(Chosen(tail, listed), JoinDots(a) + "." + JoinDots(tail), JoinDots(b) + "." + JoinDots(tail), listed)
  {
    SplitOfJoined(a, tail);
    SplitOfJoined(b, tail);
    EndsShared(a, b, tail);
    DifferBefore(a, b, tail);
  }

  lemma {:induction false} EndsShared(a: seq<string>, b: seq<string>, tail: seq<string>)
    requires a != [] && b != [] && a[|a| - 1] != b[|b| - 1]
    ensures LongestShared(tail, a + tail, b + tail)
  {
    var p, q := a + tail, b + tail;
    assert p[|a|..] == tail == q[|b|..];
    SharedIsLongest(p, q, |a| - 1, |b| - 1);
  }

  lemma {:induction false} DifferBefore(a: seq<string>, b: seq<string>, tail: seq<string>)
    requires a != [] && b != [] && a[|a| - 1] != b[|b| - 1]
    ensures a + tail != b + tail
  {
    var p, q := a + tail, b + tail;
    assert p[|p| - |tail| - 1] == a[|a| - 1] && q[|q| - |tail| - 1] == b[|b| - 1];
  }
}
