/** The raw message the sender builds, and reading it back at the first empty line. */
module MimeMessage {
  import opened Common
  import opened ReplyAddress

  const CRLF := "\r\n"

  datatype Field = Field(name: string, value: string)

  datatype Message = Message(fields: seq<Field>, body: string)

  datatype Draft = Draft(id: string, subject: string, body: string)

  predicate Clean(s: string) {
    '\r' !in s && '\n' !in s
  }

  /** A header name as section 2.2 of RFC 5322 wants it: visible, without a colon. */
  predicate Name(s: string) {
    s != "" && Clean(s) && ':' !in s && !IsSpace(s[0])
  }

  // ----- reading ------------------------------------------------------------------------

  /** Where the first CRLF starts, or -1. */
  function FirstCrlf(s: string): (i: int)
    ensures -1 <= i && (i >= 0 ==> i + 2 <= |s| && s[i..i + 2] == CRLF)
    ensures forall k :: 0 <= k && k + 2 <= |s| && (i < 0 || k < i) ==> !(s[k] == '\r' && s[k + 1] == '\n')
  {
    if |s| < 2 then -1
    else if s[0] == '\r' && s[1] == '\n' then 0
    else
      var rest := FirstCrlf(s[1..]);
      assert forall k :: 1 <= k < |s| ==> s[k] == s[1..][k - 1];
      if rest < 0 then -1
      else
        rest + 1
  }

  /** `Name: value`; a folded line is not one. */
  function ReadField(line: string): Option<Field> {
    var colon := IndexOfChar(line, ':');
    if colon <= 0 || IsSpace(line[0]) || colon + 1 >= |line| || line[colon + 1] != ' ' then None
    else Some(Field(line[..colon], line[colon + 2..]))
  }

  /** Section 2.1 of RFC 5322: header lines up to the first empty line, then the body. */
  function Read(s: string): Option<Message> {
    var end := FirstCrlf(s);
    if end < 0 then None
    else if end == 0 then Some(Message([], s[2..]))
    else
      var field := ReadField(s[..end]);
      var rest := Read(s[end + 2..]);
      if field.None? || rest.None? then None
      else Some(Message([field.value] + rest.value.fields, rest.value.body))
  }

  // ----- writing --------------------------------------------------------------------------

  function Line(f: Field): string {
    f.name + ": " + f.value + CRLF
  }

  function Header(fields: seq<Field>): string {
    if fields == [] then "" else Header(fields[..|fields| - 1]) + Line(fields[|fields| - 1])
  }

  function Rendered(m: Message): string {
    Header(m.fields) + CRLF + m.body
  }

  lemma {:induction false} HeaderFront(fields: seq<Field>)
    requires fields != []
    ensures Header(fields) == Line(fields[0]) + Header(fields[1..])
  {
    if |fields| > 1 {
      HeaderFront(fields[..|fields| - 1]);
      assert fields[..|fields| - 1][1..] == fields[1..][..|fields[1..]| - 1];
    } else {
      assert fields[..0] == [] && fields[1..] == [];
    }
  }

  lemma {:induction false} FirstCrlfAfter(line: string, rest: string)
    requires '\r' !in line
    ensures FirstCrlf(line + CRLF + rest) == |line|
  {
    var s := line + CRLF + rest;
    assert s[|line|] == '\r' && s[|line| + 1] == '\n';
    assert forall k :: 0 <= k < |line| ==> s[k] == line[k];
  }

  lemma {:induction false} FieldReads(f: Field)
    requires Name(f.name)
    ensures ReadField(f.name + ": " + f.value) == Some(f)
  {
    var line := f.name + ": " + f.value;
    FirstSplit(f.name, ':', " " + f.value);
    assert f.name + [':'] + (" " + f.value) == line;
    assert line[..|f.name|] == f.name && line[|f.name| + 2..] == f.value;
  }

  lemma {:induction false} LineReads(f: Field, rest: string)
    requires Name(f.name) && Clean(f.value)
    ensures var s := Line(f) + rest;
            && FirstCrlf(s) == |f.name| + 2 + |f.value|
            && ReadField(s[..FirstCrlf(s)]) == Some(f)
            && s[FirstCrlf(s) + 2..] == rest
  {
    var line := f.name + ": " + f.value;
    assert Line(f) + rest == line + CRLF + rest;
    FirstCrlfAfter(line, rest);
    FieldReads(f);
    assert (line + CRLF + rest)[..|line|] == line;
  }

  /** Reading gives back exactly the fields, in order, and the body, for every body whatever. */
  lemma {:induction false} ReadRendered(m: Message)
    requires forall f :: f in m.fields ==> Readable(f)
    ensures Read(Rendered(m)) == Some(m)
    decreases |m.fields|
  {
    if m.fields == [] {
      EmptyLineReads(m.body);
      assert Rendered(m) == "" + CRLF + m.body == CRLF + m.body;
    } else {
      var rest := Message(m.fields[1..], m.body);
      RenderedFront(m);
      assert Readable(m.fields[0]);
      ReadRendered(rest);
      FieldThenRest(m.fields[0], Rendered(rest));
      assert [m.fields[0]] + m.fields[1..] == m.fields;
    }
  }

  lemma {:induction false} EmptyLineReads(body: string)
    ensures Read(CRLF + body) == Some(Message([], body))
  {
    var s := CRLF + body;
    assert s[0] == '\r' && s[1] == '\n' && s[2..] == body;
  }

  lemma {:induction false} RenderedFront(m: Message)
    requires m.fields != []
    ensures Rendered(m) == Line(m.fields[0]) + Rendered(Message(m.fields[1..], m.body))
  {
    HeaderFront(m.fields);
  }

  lemma {:induction false} FieldThenRest(f: Field, rest: string)
    requires Readable(f) && Read(rest).Some?
    ensures Read(Line(f) + rest) == Some(Message([f] + Read(rest).value.fields, Read(rest).value.body))
  {
    LineReads(f, rest);
  }

  // ----- the sender's message ---------------------------------------------------------------

  function SanitiseHeader(s: string): (r: string)
    ensures Clean(r) && |r| == |s|
    ensures forall i :: 0 <= i < |s| ==> r[i] == if s[i] == '\r' || s[i] == '\n' then ' ' else s[i]
    ensures Clean(s) ==> r == s
  {
    if s == "" then ""
    else
      var last := s[|s| - 1];
      assert s == s[..|s| - 1] + [last];
      SanitiseHeader(s[..|s| - 1]) + [if last == '\r' || last == '\n' then ' ' else last]
  }

  /** strings.TrimRight(s, "/"): no slash is left at the end, and nothing else is cut. */
  function TrimRightSlash(s: string): (r: string)
    ensures r <= s && (r != "" ==> r[|r| - 1] != '/')
    ensures forall i :: |r| <= i < |s| ==> s[i] == '/'
  {
    if s != "" && s[|s| - 1] == '/' then TrimRightSlash(s[..|s| - 1]) else s
  }

  lemma {:induction false} TrimRightSlashClean(s: string)
    requires Clean(s)
    ensures Clean(TrimRightSlash(s))
  {
    if s != "" && s[|s| - 1] == '/' {
      TrimRightSlashClean(s[..|s| - 1]);
    }
  }

  function UnsubscribeLinks(from: string, draftId: string, unsubBase: string): string {
    "<" + TrimRightSlash(unsubBase) + "/unsubscribe?d=" + draftId + ">, <mailto:" + from + "?subject=unsubscribe>"
  }

  function AddressFields(from: string, to: string, draft: Draft): seq<Field> {
    [
      Field("From", from),
      Field("To", to),
      Field("Reply-To", PlusAddress(from, draft.id)),
      Field("Subject", SanitiseHeader(draft.subject))
    ]
  }

  function FixedFields(from: string, draftId: string, unsubBase: string): seq<Field> {
    [
      Field("MIME-Version", "1.0"),
      Field("Content-Type", "text/plain; charset=UTF-8"),
      Field("List-Unsubscribe", UnsubscribeLinks(from, draftId, unsubBase)),
      Field("List-Unsubscribe-Post", "List-Unsubscribe=One-Click")
    ]
  }

  /** The eight header fields, in order. */
  function Fields(from: string, to: string, draft: Draft, unsubBase: string): seq<Field> {
    AddressFields(from, to, draft) + FixedFields(from, draft.id, unsubBase)
  }

  lemma {:induction false} PlusAddressClean(addr: string, token: string)
    requires Clean(addr)
    ensures Clean(PlusAddress(addr, token))
  {
  }

  lemma {:induction false} UnsubscribeLinksClean(from: string, draftId: string, unsubBase: string)
    requires Clean(from) && Clean(draftId) && Clean(unsubBase)
    ensures Clean(UnsubscribeLinks(from, draftId, unsubBase))
  {
    TrimRightSlashClean(unsubBase);
  }

  predicate Readable(f: Field) {
    Name(f.name) && Clean(f.value)
  }

  lemma {:induction false} AddressFieldsReadable(from: string, to: string, draft: Draft)
    requires Clean(from) && Clean(to)
    ensures forall f :: f in AddressFields(from, to, draft) ==> Readable(f)
  {
    PlusAddressClean(from, draft.id);
    assert Name("From") && Name("To") && Name("Reply-To") && Name("Subject");
  }

  lemma {:induction false} FixedFieldsReadable(from: string, draftId: string, unsubBase: string)
    requires Clean(from) && Clean(draftId) && Clean(unsubBase)
    ensures forall f :: f in FixedFields(from, draftId, unsubBase) ==> Readable(f)
  {
    UnsubscribeLinksClean(from, draftId, unsubBase);
    FixedNames();
    UnsubscribeNames();
    assert Clean("1.0");
    assert Clean("text/plain; charset=UTF-8");
    assert Clean("List-Unsubscribe=One-Click");
  }

  lemma FixedNames()
    ensures Name("MIME-Version")
    ensures Name("Content-Type")
  {
  }

  lemma UnsubscribeNames()
    ensures Name("List-Unsubscribe")
    ensures Name("List-Unsubscribe-Post")
  {
  }

  lemma {:induction false} HeaderOfFour(a: Field, b: Field, c: Field, d: Field)
    ensures Header([a, b, c, d]) == Line(a) + Line(b) + Line(c) + Line(d)
  {
    assert [a, b, c, d][..3] == [a, b, c] && [a, b, c][..2] == [a, b] && [a, b][..1] == [a] && [a][..0] == [];
    assert Header([a, b]) == Header([a]) + Line(b) && Header([a]) == Line(a);
  }

  lemma {:induction false} HeaderAppend(a: seq<Field>, b: seq<Field>)
    ensures Header(a + b) == Header(a) + Header(b)
  {
    if b == [] {
      assert a + b == a;
    } else {
      assert (a + b)[..|a + b| - 1] == a + b[..|b| - 1];
      HeaderAppend(a, b[..|b| - 1]);
    }
  }

  /** A written line is that field's line. */
  lemma {:induction false} Written(prefix: string, name: string, value: string)
    requires prefix == name + ": "
    ensures prefix + value + "\r\n" == Line(Field(name, value))
  {
  }

  method AddressLines(from: string, to: string, draft: Draft) returns (raw: string)
    ensures raw == Header(AddressFields(from, to, draft))
  {
    Written("From: ", "From", from);
    Written("To: ", "To", to);
    Written("Reply-To: ", "Reply-To", PlusAddress(from, draft.id));
    Written("Subject: ", "Subject", SanitiseHeader(draft.subject));
    raw := "From: " + from + "\r\n";
    raw := raw + ("To: " + to + "\r\n");
    raw := raw + ("Reply-To: " + PlusAddress(from, draft.id) + "\r\n");
    raw := raw + ("Subject: " + SanitiseHeader(draft.subject) + "\r\n");
    var fields := AddressFields(from, to, draft);
    HeaderOfFour(fields[0], fields[1], fields[2], fields[3]);
  }

  method FixedLines(from: string, draftId: string, unsubBase: string) returns (raw: string)
    ensures raw == Header(FixedFields(from, draftId, unsubBase))
  {
    var links := UnsubscribeLinks(from, draftId, unsubBase);
    Written("MIME-Version: ", "MIME-Version", "1.0");
    Written("Content-Type: ", "Content-Type", "text/plain; charset=UTF-8");
    Written("List-Unsubscribe: ", "List-Unsubscribe", links);
    Written("List-Unsubscribe-Post: ", "List-Unsubscribe-Post", "List-Unsubscribe=One-Click");
    raw := "MIME-Version: " + "1.0" + "\r\n";
    raw := raw + ("Content-Type: " + "text/plain; charset=UTF-8" + "\r\n");
    raw := raw + ("List-Unsubscribe: " + links + "\r\n");
    raw := raw + ("List-Unsubscribe-Post: " + "List-Unsubscribe=One-Click" + "\r\n");
    var fields := FixedFields(from, draftId, unsubBase);
    HeaderOfFour(fields[0], fields[1], fields[2], fields[3]);
  }

  /**
   * For every subject and body, and addresses, id and base free of CR and LF, the raw message reads
   * back as the eight fields in order and the body untouched.
   */
  method BuildRawMime(from: string, to: string, draft: Draft, unsubBase: string) returns (raw: string)
    ensures raw == Rendered(Message(Fields(from, to, draft, unsubBase), draft.body))
    ensures Clean(from) && Clean(to) && Clean(draft.id) && Clean(unsubBase) ==>
              && Read(raw).Some? && Read(raw).value.body == draft.body
              && EightFields(Read(raw).value.fields, from, to, draft, unsubBase)
  {
    var first := AddressLines(from, to, draft);
    var second := FixedLines(from, draft.id, unsubBase);
    raw := first + second;
    HeaderAppend(AddressFields(from, to, draft), FixedFields(from, draft.id, unsubBase));
    raw := raw + "\r\n";
    raw := raw + draft.body;
    if Clean(from) && Clean(to) && Clean(draft.id) && Clean(unsubBase) {
      MessageReads(from, to, draft, unsubBase);
      FieldsAreEight(from, to, draft, unsubBase);
    }
  }

  /** Who it is from and to, where replies go, the subject on one line, plain text, and the two ways to unsubscribe. */
  predicate EightFields(fields: seq<Field>, from: string, to: string, draft: Draft, unsubBase: string) {
    && |fields| == 8
    && fields[0] == Field("From", from)
    && fields[1] == Field("To", to)
    && fields[2] == Field("Reply-To", PlusAddress(from, draft.id))
    && fields[3] == Field("Subject", SanitiseHeader(draft.subject))
    && fields[4] == Field("MIME-Version", "1.0")
    && fields[5] == Field("Content-Type", "text/plain; charset=UTF-8")
    && fields[6].name == "List-Unsubscribe"
    && fields[6].value == "<" + TrimRightSlash(unsubBase) + "/unsubscribe?d=" + draft.id + ">, <mailto:" + from
                          + "?subject=unsubscribe>"
    && fields[7] == Field("List-Unsubscribe-Post", "List-Unsubscribe=One-Click")
  }

  lemma {:induction false} FieldsAreEight(from: string, to: string, draft: Draft, unsubBase: string)
    ensures EightFields(Fields(from, to, draft, unsubBase), from, to, draft, unsubBase)
  {
    var a, b := AddressFields(from, to, draft), FixedFields(from, draft.id, unsubBase);
    var all := a + b;
    assert all[0] == a[0] && all[1] == a[1] && all[2] == a[2] && all[3] == a[3];
    assert all[4] == b[0] && all[5] == b[1] && all[6] == b[2] && all[7] == b[3];
  }

  /** For every subject and body, the message built from clean addresses reads back as itself. */
  lemma {:induction false} MessageReads(from: string, to: string, draft: Draft, unsubBase: string)
    requires Clean(from) && Clean(to) && Clean(draft.id) && Clean(unsubBase)
    ensures var m := Message(Fields(from, to, draft, unsubBase), draft.body);
            Read(Rendered(m)) == Some(m)
  {
    AddressFieldsReadable(from, to, draft);
    FixedFieldsReadable(from, draft.id, unsubBase);
    ReadRendered(Message(Fields(from, to, draft, unsubBase), draft.body));
  }
}
