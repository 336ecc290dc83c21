/** Plus-addressed Reply-To: the sender writes the draft id into it, the reply handlers read it back. */
module ReplyAddress {
  import opened Common
  import Sender

  predicate Unsafe(c: char) {
    c == '\r' || c == '\n' || c == '@' || c == '+'
  }

  /** The token without the characters that would break an address. */
  function Stripped(token: string): (r: string)
    ensures forall i :: 0 <= i < |r| ==> !Unsafe(r[i])
    ensures (forall i :: 0 <= i < |token| ==> !Unsafe(token[i])) ==> r == token
  {
    if token == "" then ""
    else
      var last := token[|token| - 1];
      var rest := Stripped(token[..|token| - 1]);
      assert token == token[..|token| - 1] + [last];
      if Unsafe(last) then rest
      else
        rest + [last]
  }

  function PlusAddress(addr: string, token: string): string {
    WithToken(addr, Stripped(token))
  }

  function WithToken(addr: string, safe: string): string {
    var at := LastIndexOfChar(addr, '@');
    if at < 0 then addr else addr[..at] + "+" + safe + addr[at..]
  }

  function PlusToken(addr: string, replyDomain: string): string {
    var at := LastIndexOfChar(addr, '@');
    if at < 0 then ""
    else
      var local := addr[..at];
      var domain := Lower(addr[at + 1..]);
      if replyDomain != "" && domain != replyDomain then "" else AfterPlus(local)
  }

  function AfterPlus(local: string): string {
    var plus := IndexOfChar(local, '+');
    if plus < 0 || plus + 1 >= |local| then "" else local[plus + 1..]
  }

  /** The addresses the reply token survives in. */
  predicate Carries(addr: string, replyDomain: string) {
    var at := LastIndexOfChar(addr, '@');
    at >= 0 && '+' !in addr[..at] && (replyDomain == "" || Lower(addr[at + 1..]) == replyDomain)
  }

  lemma {:induction false} ReadsBack(local: string, domain: string, replyDomain: string)
    requires '@' !in domain
    ensures PlusToken(local + "@" + domain, replyDomain)
            == if replyDomain != "" && Lower(domain) != replyDomain then "" else AfterPlus(local)
  {
    var addr := local + "@" + domain;
    LastSplit(local, '@', domain);
    assert addr == local + ['@'] + domain;
    assert addr[..|local|] == local && addr[|local| + 1..] == domain;
  }

  lemma {:induction false} AfterPlusOf(front: string, safe: string)
    requires safe != ""
    ensures AfterPlus(front + "+" + safe) == safe <==> '+' !in front
  {
    var local := front + "+" + safe;
    if '+' !in front {
      FirstSplit(front, '+', safe);
      assert local == front + ['+'] + safe;
      assert local[|front| + 1..] == safe;
    } else {
      var first := IndexOfChar(front, '+');
      assert local[first] == '+';
      assert |AfterPlus(local)| > |safe|;
    }
  }

  lemma {:induction false} WrittenReadsBack(local: string, domain: string, safe: string, replyDomain: string)
    requires '@' !in domain && safe != ""
    ensures PlusToken((local + "+" + safe) + "@" + domain, replyDomain) == safe <==>
            '+' !in local && (replyDomain == "" || Lower(domain) == replyDomain)
  {
    ReadsBack(local + "+" + safe, domain, replyDomain);
    AfterPlusOf(local, safe);
  }

  lemma {:induction false} WrittenForm(local: string, domain: string, safe: string)
    requires '@' !in domain
    ensures WithToken(local + "@" + domain, safe) == (local + "+" + safe) + "@" + domain
  {
    var addr := local + "@" + domain;
    LastSplit(local, '@', domain);
    assert addr == local + ['@'] + domain;
    assert addr[..|local|] == local && addr[|local|..] == "@" + domain;
  }

  /** Removing what would break an address goes character by character. */
  lemma {:induction false} StrippedNext(token: string, c: char)
    ensures Stripped(token + [c]) == Stripped(token) + if c == '\r' || c == '\n' || c == '@' || c == '+' then "" else [c]
  {
    assert (token + [c])[..|token|] == token && (token + [c])[|token|] == c;
    assert Stripped(token) + "" == Stripped(token);
  }

  /** The token goes between the local part and the domain, which both stay. */
  lemma {:induction false} PlusAddressForm(local: string, domain: string, token: string)
    requires '@' !in domain
    ensures PlusAddress(local + "@" + domain, token) == (local + "+" + Stripped(token)) + "@" + domain
  {
    WrittenForm(local, domain, Stripped(token));
  }

  lemma {:induction false} CarriesForm(local: string, domain: string, replyDomain: string)
    requires '@' !in domain
    ensures Carries(local + "@" + domain, replyDomain) <==>
            '+' !in local && (replyDomain == "" || Lower(domain) == replyDomain)
  {
    var addr := local + "@" + domain;
    LastSplit(local, '@', domain);
    assert addr == local + ['@'] + domain;
    assert addr[..|local|] == local && addr[|local| + 1..] == domain;
  }

  lemma {:induction false} SafeReadsBack(local: string, domain: string, safe: string, replyDomain: string)
    requires '@' !in domain && safe != ""
    ensures PlusToken(WithToken(local + "@" + domain, safe), replyDomain) == safe <==>
            Carries(local + "@" + domain, replyDomain)
  {
    WrittenForm(local, domain, safe);
    WrittenReadsBack(local, domain, safe, replyDomain);
    CarriesForm(local, domain, replyDomain);
  }

  lemma {:induction false} AtLast(addr: string) returns (local: string, domain: string)
    requires '@' in addr
    ensures addr == local + "@" + domain && '@' !in domain
  {
    var at := LastIndexOfChar(addr, '@');
    local, domain := addr[..at], addr[at + 1..];
  }

  lemma {:induction false} WithoutAt(addr: string, safe: string, replyDomain: string)
    requires '@' !in addr && safe != ""
    ensures PlusToken(WithToken(addr, safe), replyDomain) != safe && !Carries(addr, replyDomain)
  {
  }

  /** Reading undoes writing exactly for addresses at the reply domain without a '+' of their own. */
  lemma {:induction false} ReplyTokenRoundTrip(addr: string, token: string, replyDomain: string)
    requires Stripped(token) != ""
    ensures PlusToken(PlusAddress(addr, token), replyDomain) == Stripped(token) <==> Carries(addr, replyDomain)
  {
    if '@' in addr {
      var local, domain := AtLast(addr);
      SafeReadsBack(local, domain, Stripped(token), replyDomain);
    } else {
      WithoutAt(addr, Stripped(token), replyDomain);
    }
  }

  /** A token that survives writing unchanged reads back as itself. */
  lemma {:induction false} CleanTokenRoundTrip(addr: string, token: string, replyDomain: string)
    requires token != "" && Carries(addr, replyDomain)
    requires forall i :: 0 <= i < |token| ==> !Unsafe(token[i])
    ensures PlusToken(PlusAddress(addr, token), replyDomain) == token
  {
    ReplyTokenRoundTrip(addr, token, replyDomain);
  }

  function FirstNonEmpty(tokens: seq<string>): string {
    if tokens == [] then ""
    else if tokens[0] != "" then tokens[0]
    else FirstNonEmpty(tokens[1..])
  }

  /** What comes after a non-empty token does not matter, nor what empty ones come before. */
  lemma {:induction false} FirstNonEmptyAppend(a: seq<string>, b: seq<string>)
    ensures FirstNonEmpty(a + b) == if FirstNonEmpty(a) != "" then FirstNonEmpty(a) else FirstNonEmpty(b)
  {
    if a == [] {
      assert a + b == b;
    } else {
      assert (a + b)[1..] == a[1..] + b;
      FirstNonEmptyAppend(a[1..], b);
    }
  }

  function Tokens(addrs: seq<string>, replyDomain: string): (r: seq<string>)
    ensures |r| == |addrs| && forall i :: 0 <= i < |addrs| ==> r[i] == PlusToken(addrs[i], replyDomain)
  {
    seq(|addrs|, i requires 0 <= i < |addrs| => PlusToken(addrs[i], replyDomain))
  }

  /** The first non-empty token along a list of recipients. */
  function FirstToken(addrs: seq<string>, replyDomain: string): string {
    FirstNonEmpty(Tokens(addrs, replyDomain))
  }

  lemma {:induction false} FirstTokenAppend(a: seq<string>, b: seq<string>, replyDomain: string)
    ensures FirstToken(a + b, replyDomain)
            == if FirstToken(a, replyDomain) != "" then FirstToken(a, replyDomain) else FirstToken(b, replyDomain)
  {
    assert Tokens(a + b, replyDomain) == Tokens(a, replyDomain) + Tokens(b, replyDomain);
    FirstNonEmptyAppend(Tokens(a, replyDomain), Tokens(b, replyDomain));
  }

  lemma {:induction false} FirstTokenOfOne(addr: string, replyDomain: string)
    ensures FirstToken([addr], replyDomain) == PlusToken(addr, replyDomain)
  {
    assert Tokens([addr], replyDomain) == [PlusToken(addr, replyDomain)];
    FirstNonEmptyOfOne(PlusToken(addr, replyDomain));
  }

  lemma {:induction false} FirstNonEmptyOfOne(token: string)
    ensures FirstNonEmpty([token]) == token
  {
    assert [token][1..] == [];
  }

  /** Header values in the order searched, each parsed into addresses, or not at all. */
  type Recipients = seq<Option<seq<string>>>

  function Addresses(values: Recipients): seq<string> {
    if values == [] then []
    else
      var before := Addresses(values[..|values| - 1]);
      if values[|values| - 1].Some? then before + values[|values| - 1].value else before
  }

  lemma {:induction false} AddressesAppend(a: Recipients, b: Recipients)
    ensures Addresses(a + b) == Addresses(a) + Addresses(b)
    ensures |b| == 1 ==> Addresses(b) == if b[0].Some? then b[0].value else []
  {
    if b == [] {
      assert a + b == a;
    } else {
      assert (a + b)[..|a + b| - 1] == a + b[..|b| - 1];
      AddressesAppend(a, b[..|b| - 1]);
      assert b[..0] == [];
    }
  }

  /** No recipient of these carries a token of the reply domain. */
  predicate Tokenless(addrs: seq<string>, replyDomain: string) {
    forall i :: 0 <= i < |addrs| ==> PlusToken(addrs[i], replyDomain) == ""
  }

  /** No recipient in the first n headers that parse. */
  predicate AllTokenless(values: Recipients, n: nat, replyDomain: string)
    requires n <= |values|
  {
    forall v :: 0 <= v < n && values[v].Some? ==> Tokenless(values[v].value, replyDomain)
  }

  /** The inner loop: one header value's addresses. */
  method FirstOf(addrs: seq<string>, replyDomain: string) returns (token: string)
    ensures token == "" ==> Tokenless(addrs, replyDomain)
    ensures token != "" ==> exists a :: 0 <= a < |addrs| && PlusToken(addrs[a], replyDomain) == token
                                        && Tokenless(addrs[..a], replyDomain)
    ensures token == FirstToken(addrs, replyDomain)
  {
    var a := 0;
    while a < |addrs|
      invariant 0 <= a <= |addrs|
      invariant Tokenless(addrs[..a], replyDomain)
      invariant FirstToken(addrs[..a], replyDomain) == ""
    {
      token := PlusToken(addrs[a], replyDomain);
      if token != "" {
        FirstTokenWithin(addrs, a, replyDomain);
        return;
      }
      assert addrs[..a + 1] == addrs[..a] + [addrs[a]];
      FirstTokenOfOne(addrs[a], replyDomain);
      FirstTokenAppend(addrs[..a], [addrs[a]], replyDomain);
      a := a + 1;
    }
    assert addrs[..a] == addrs;
    return "";
  }

  lemma {:induction false} FirstTokenNext(values: Recipients, v: nat, replyDomain: string)
    requires v < |values| && values[v].Some?
    requires FirstToken(Addresses(values[..v]), replyDomain) == ""
    ensures FirstToken(Addresses(values[..v + 1]), replyDomain) == FirstToken(values[v].value, replyDomain)
  {
    assert values[..v + 1][..v] == values[..v];
    FirstTokenAppend(Addresses(values[..v]), values[v].value, replyDomain);
  }

  /** extractDraftID over the five headers' values; `replyDomain` is already trimmed and lowered. */
  method ExtractDraftId(values: Recipients, replyDomain: string) returns (token: string)
    // None of the recipients carries a token, or this is the first one's along headers and recipients.
    ensures token == "" ==> AllTokenless(values, |values|, replyDomain)
    ensures token != "" ==>
              exists v, a :: 0 <= v < |values| && AllTokenless(values, v, replyDomain) && values[v].Some?
                             && 0 <= a < |values[v].value| && Tokenless(values[v].value[..a], replyDomain)
                             && PlusToken(values[v].value[a], replyDomain) == token
    ensures token == FirstToken(Addresses(values), replyDomain)
  {
    var v := 0;
    while v < |values|
      invariant 0 <= v <= |values|
      invariant AllTokenless(values, v, replyDomain)
      invariant FirstToken(Addresses(values[..v]), replyDomain) == ""
    {
      assert values[..v + 1][..v] == values[..v];
      if values[v].None? {
        v := v + 1;
        continue;
      }
      token := FirstOf(values[v].value, replyDomain);
      FirstTokenNext(values, v, replyDomain);
      if token != "" {
        FirstTokenOfPrefix(values, v, replyDomain);
        return;
      }
      v := v + 1;
    }
    assert values[..v] == values;
    return "";
  }

  lemma {:induction false} FirstTokenWithin(addrs: seq<string>, a: nat, replyDomain: string)
    requires a < |addrs| && FirstToken(addrs[..a], replyDomain) == "" && PlusToken(addrs[a], replyDomain) != ""
    ensures FirstToken(addrs, replyDomain) == PlusToken(addrs[a], replyDomain)
  {
    var front, mine, rest := addrs[..a], [addrs[a]], addrs[a + 1..];
    FirstTokenOfOne(addrs[a], replyDomain);
    FirstTokenAppend(mine, rest, replyDomain);
    FirstTokenAppend(front, mine + rest, replyDomain);
    assert front + (mine + rest) == addrs;
  }

  /** Once a value holds a token, the values after it are not looked at. */
  lemma {:induction false} FirstTokenOfPrefix(values: Recipients, v: nat, replyDomain: string)
    requires v < |values| && values[v].Some?
    requires FirstToken(Addresses(values[..v]), replyDomain) == ""
    requires FirstToken(values[v].value, replyDomain) != ""
    ensures FirstToken(Addresses(values), replyDomain) == FirstToken(values[v].value, replyDomain)
  {
    var before, after := Addresses(values[..v]), Addresses(values[v + 1..]);
    FirstTokenAppend(values[v].value, after, replyDomain);
    FirstTokenAppend(before, values[v].value + after, replyDomain);
    AddressesSplit(values, v);
  }

  lemma {:induction false} AddressesSplit(values: Recipients, v: nat)
    requires v < |values| && values[v].Some?
    ensures Addresses(values) == Addresses(values[..v]) + (values[v].value + Addresses(values[v + 1..]))
  {
    assert values == values[..v] + ([values[v]] + values[v + 1..]);
    AddressesAppend(values[..v], [values[v]] + values[v + 1..]);
    AddressesAppend([values[v]], values[v + 1..]);
    AddressesAppend([], [values[v]]);
  }

  lemma {:induction false} TokenlessHasNone(addrs: seq<string>, replyDomain: string)
    requires Tokenless(addrs, replyDomain)
    ensures FirstToken(addrs, replyDomain) == ""
  {
    AllEmpty(Tokens(addrs, replyDomain));
  }

  lemma {:induction false} AllEmpty(tokens: seq<string>)
    requires forall i :: 0 <= i < |tokens| ==> tokens[i] == ""
    ensures FirstNonEmpty(tokens) == ""
  {
    if tokens != [] {
      AllEmpty(tokens[1..]);
    }
  }

  /** The token a reply to the draft's mail carries, among recipients of no interest before it and any after it. */
  lemma {:induction false} ReplyCarriesDraft(
      draftId: string, from: string, replyDomain: string, before: seq<string>, after: seq<string>)
    requires draftId != "" && forall i :: 0 <= i < |draftId| ==> !Unsafe(draftId[i])
    requires Carries(from, replyDomain) && Tokenless(before, replyDomain)
    ensures FirstToken(before + [PlusAddress(from, draftId)] + after, replyDomain) == draftId
  {
    var mine := [PlusAddress(from, draftId)];
    CleanTokenRoundTrip(from, draftId, replyDomain);
    TokenlessHasNone(before, replyDomain);
    FirstTokenOfOne(PlusAddress(from, draftId), replyDomain);
    FirstTokenAppend(before, mine, replyDomain);
    FirstTokenAppend(before + mine, after, replyDomain);
  }

  /** The token leads to the row of this business. */
  predicate Finds(t: Sender.Table, token: string, d: Sender.Detail) {
    token in t.replyRefs && t.replyRefs[token].businessId == d.businessId && t.replyRefs[token].draftId == d.draftId
  }

  /**
   * After any run of the sender, a reply to any worker's mail, however that worker ended, finds
   * the row of the mail's own business if and only if some worker's index write for the draft did
   * not fail, whoever else is addressed after it, and before it as long as those carry no token of
   * the reply domain.
   */
  lemma {:induction false} ReplyFindsItsBusiness(
      s: Sender.Sys, steps: seq<Sender.Step>, owner: map<string, string>, worker: nat,
      from: string, replyDomain: string, before: seq<string>, after: seq<string>)
    requires Sender.Initial(s) && s.table.replyRefs == map[] && Sender.Owned(steps, owner)
    requires worker in Sender.Run(s, steps).workers
    requires var draftId := Sender.Run(s, steps).workers[worker].env.detail.draftId;
             draftId != "" && forall i :: 0 <= i < |draftId| ==> !Unsafe(draftId[i])
    requires Carries(from, replyDomain) && Tokenless(before, replyDomain)
    ensures var t := Sender.Run(s, steps);
            var d := t.workers[worker].env.detail;
            var token := FirstToken(before + [PlusAddress(from, d.draftId)] + after, replyDomain);
            Finds(t.table, token, d) <==> Sender.Indexed(s, steps, d.draftId)
  {
    var d := Sender.Run(s, steps).workers[worker].env.detail;
    Sender.ReplyRefsNameTheBusiness(s, steps, owner);
    Sender.IndexedExactly(s, steps, d.draftId);
    ReplyCarriesDraft(d.draftId, from, replyDomain, before, after);
  }

  /** A sent message whose worker died before its index write: no reply to it is ever attributed, and no redelivery resends it. */
  lemma {:induction false} ReplyLostAfterCrash(
      s: Sender.Sys, worker: nat, env: Sender.Envelope, msgId: string,
      from: string, replyDomain: string, before: seq<string>, after: seq<string>) returns (steps: seq<Sender.Step>)
    requires Sender.Inv(s) && worker !in s.workers && env.eventId != "" && !Sender.Incomplete(env.detail)
    requires Sender.Idempotency.Key(Sender.CONSUMER, env.eventId) !in s.table.records
    requires Sender.MarkerOf(env.detail) !in s.table.markers && env.detail.draftId !in s.table.replyRefs
    requires forall i :: 0 <= i < |env.detail.draftId| ==> !Unsafe(env.detail.draftId[i])
    requires Carries(from, replyDomain) && Tokenless(before, replyDomain)
    ensures var t := Sender.Run(s, steps);
            && worker in t.workers && t.workers[worker].env == env && Sender.HasSent(t.workers[worker])
            && !Sender.CanStillSend(t, Sender.MarkerOf(env.detail))
            && FirstToken(before + [PlusAddress(from, env.detail.draftId)] + after, replyDomain) !in t.table.replyRefs
  {
    steps := Sender.SentButNotIndexed(s, worker, env, msgId);
    ReplyCarriesDraft(env.detail.draftId, from, replyDomain, before, after);
  }
}
