/** The best-effort HTML stripper of the audit: tag blocks, then tags, then white space. ASCII case. */
module HtmlStripper {
  import opened Common

  predicate At(s: string, k: int, pat: string) {
    0 <= k && k + |pat| <= |s| && s[k..k + |pat|] == pat
  }

  /** strings.Index. */
  function IndexOf(s: string, pat: string): (i: int)
    ensures -1 <= i
    ensures i >= 0 ==> At(s, i, pat) && forall k :: 0 <= k < i ==> !At(s, k, pat)
    ensures i < 0 ==> forall k :: !At(s, k, pat)
  {
    IndexFrom(s, pat, 0)
  }

  function IndexFrom(s: string, pat: string, from: nat): (i: int)
    ensures i == -1 || i >= from
    ensures i >= 0 ==> At(s, i, pat) && forall k :: from <= k < i ==> !At(s, k, pat)
    ensures i < 0 ==> forall k :: from <= k ==> !At(s, k, pat)
    decreases |s| - from
  {
    if from > |s| then -1
    else if At(s, from, pat) then from
    else IndexFrom(s, pat, from + 1)
  }

  /** The only place `pat` can first be. */
  lemma {:induction false} IndexIs(s: string, pat: string, i: nat)
    requires At(s, i, pat) && forall k :: 0 <= k < i ==> !At(s, k, pat)
    ensures IndexOf(s, pat) == i
  {
  }

  // ----- tag blocks ----------------------------------------------------------------------

  function Opening(tag: string): string { "<" + tag }

  function Closing(tag: string): string { "</" + tag + ">" }

  /** The text with the first block of `tag` cut out, or cut off where it is never closed. */
  function CutFirst(s: string, start: nat, tag: string): (r: string)
    requires At(Lower(s), start, Opening(tag))
    ensures |r| < |s|
  {
    var end := IndexOf(Lower(s)[start..], Closing(tag));
    if end < 0 then s[..start] else s[..start] + s[start + end + |Closing(tag)|..]
  }

  function TagStripped(s: string, tag: string): string
    decreases |s|
  {
    var start := IndexOf(Lower(s), Opening(tag));
    if start < 0 then s else TagStripped(CutFirst(s, start, tag), tag)
  }

  /** No block of `tag` opens in s, in any letter case. */
  ghost predicate NoOpening(s: string, tag: string) {
    forall k :: !At(Lower(s), k, Opening(tag))
  }

  lemma {:induction false} NothingToStrip(s: string, tag: string)
    requires NoOpening(s, tag)
    ensures TagStripped(s, tag) == s
  {
  }

  lemma {:induction false} StripTurn(s: string, start: nat, tag: string)
    requires start == IndexOf(Lower(s), Opening(tag))
    ensures TagStripped(s, tag) == TagStripped(CutFirst(s, start, tag), tag)
  {
  }

  /** Cuts out the block opening at `start`, or everything from there when it never closes. */
  method CutBlock(s: string, start: nat, tag: string) returns (r: string, closed: bool)
    requires start == IndexOf(Lower(s), Opening(tag))
    ensures r == CutFirst(s, start, tag)
    ensures !closed ==> NoOpening(r, tag)
  {
    var end := IndexOf(Lower(s)[start..], "</" + tag + ">");
    if end < 0 {
      NoOpeningBefore(s, start, tag);
      return s[..start], false;
    }
    return s[..start] + s[start + end + |Closing(tag)|..], true;
  }

  method StripTagBlock(text: string, tag: string) returns (r: string)
    ensures r == TagStripped(text, tag) && NoOpening(r, tag)
  {
    r := text;
    while true
      invariant TagStripped(r, tag) == TagStripped(text, tag)
      decreases |r|
    {
      var start := IndexOf(Lower(r), "<" + tag);
      if start < 0 {
        NothingToStrip(r, tag);
        return;
      }
      StripTurn(r, start, tag);
      var closed;
      r, closed := CutBlock(r, start, tag);
      if !closed {
        NothingToStrip(r, tag);
        return;
      }
    }
  }

  /** What stands before the first opening holds none. */
  lemma {:induction false} NoOpeningBefore(s: string, start: nat, tag: string)
    requires IndexOf(Lower(s), Opening(tag)) == start
    ensures NoOpening(s[..start], tag)
  {
    assert Lower(s[..start]) == Lower(s)[..start];
    forall k | At(Lower(s)[..start], k, Opening(tag)) ensures At(Lower(s), k, Opening(tag)) && k < start {
      AtInFront(Lower(s), start, k, Opening(tag));
    }
  }

  lemma {:induction false} AtInFront(t: string, n: nat, k: int, pat: string)
    requires n <= |t| && At(t[..n], k, pat)
    ensures At(t, k, pat) && k + |pat| <= n
  {
    assert t[..n][k..k + |pat|] == t[k..k + |pat|];
  }

  /** A whole block, in any letter case: it opens with the tag and first closes at its end. */
  predicate Block(b: string, tag: string) {
    && |b| >= |Closing(tag)|
    && At(Lower(b), 0, Opening(tag))
    && IndexOf(Lower(b), Closing(tag)) == |b| - |Closing(tag)|
  }

  /** Every '<' has a '>' after it. */
  ghost predicate Sealed(a: string) {
    forall i :: 0 <= i < |a| && a[i] == '<' ==> '>' in a[i..]
  }

  /** No block of `tag` opens in a, whatever follows it. */
  ghost predicate Quiet(a: string, tag: string) {
    Sealed(a) && NoOpening(a, tag)
  }

  lemma {:induction false} AtChar(s: string, k: int, pat: string, i: nat)
    requires At(s, k, pat) && i < |pat|
    ensures s[k + i] == pat[i]
  {
    assert s[k..k + |pat|][i] == pat[i];
  }

  lemma {:induction false} LowerConcat(a: string, b: string)
    ensures Lower(a + b) == Lower(a) + Lower(b)
  {
  }

  lemma {:induction false} AtChars(s: string, k: int, pat: string)
    requires At(s, k, pat)
    ensures forall i :: 0 <= i < |pat| ==> s[k + i] == pat[i]
  {
    forall i | 0 <= i < |pat| ensures s[k + i] == pat[i] {
      AtChar(s, k, pat, i);
    }
  }

  /** An opening starts at a '<'. */
  lemma {:induction false} OpeningsHaveBracket(s: string, tag: string)
    ensures forall k :: At(Lower(s), k, Opening(tag)) ==> 0 <= k < |s| && s[k] == '<'
  {
    forall k | At(Lower(s), k, Opening(tag)) ensures 0 <= k < |s| && s[k] == '<' {
      AtChar(Lower(s), k, Opening(tag), 0);
    }
  }

  /** The tag's first letter follows. */
  lemma {:induction false} OpeningsHaveLetter(s: string, tag: string)
    requires tag != ""
    ensures forall k :: At(Lower(s), k, Opening(tag)) ==> k + 1 < |s| && LowerChar(s[k + 1]) == tag[0]
  {
    forall k | At(Lower(s), k, Opening(tag)) ensures k + 1 < |s| && LowerChar(s[k + 1]) == tag[0] {
      AtChar(Lower(s), k, Opening(tag), 1);
    }
  }

  /** An opening cannot reach across the '>' that follows its '<'. */
  lemma {:induction false} OpeningStaysInside(a: string, c: string, k: nat, tag: string)
    requires k < |a| && At(Lower(a + c), k, Opening(tag)) && '>' in a[k..] && '>' !in tag
    ensures At(Lower(a), k, Opening(tag))
  {
    var lower := Lower(a + c);
    var n := |Opening(tag)|;
    LowerConcat(a, c);
    AtChars(lower, k, Opening(tag));
    var j :| 0 <= j < |a[k..]| && a[k..][j] == '>';
    assert a[k + j] == '>' && lower[k + j] == '>';
    assert forall i :: 0 <= i < n ==> Opening(tag)[i] != '>';
    assert j >= n;
    assert lower[k..k + n] == Lower(a)[k..k + n];
  }

  lemma {:induction false} QuietBefore(a: string, c: string, tag: string)
    requires Quiet(a, tag) && '>' !in tag
    ensures forall k :: 0 <= k < |a| ==> !At(Lower(a + c), k, Opening(tag))
  {
    OpeningsHaveBracket(a + c, tag);
    forall k | 0 <= k < |a| ensures !At(Lower(a + c), k, Opening(tag)) {
      if At(Lower(a + c), k, Opening(tag)) {
        assert (a + c)[k] == a[k];
        OpeningStaysInside(a, c, k, tag);
      }
    }
  }

  lemma {:induction false} AtInTail(a: string, b: string, k: nat, pat: string)
    requires k >= |a| && At(Lower(a + b), k, pat)
    ensures At(Lower(b), k - |a|, pat)
  {
    LowerConcat(a, b);
    assert Lower(a + b)[k..k + |pat|] == Lower(b)[k - |a|..k - |a| + |pat|];
  }

  lemma {:induction false} QuietConcat(a: string, b: string, tag: string)
    requires Quiet(a, tag) && Quiet(b, tag) && '>' !in tag
    ensures Quiet(a + b, tag)
  {
    var s := a + b;
    QuietBefore(a, b, tag);
    LowerConcat(a, b);
    forall i | 0 <= i < |s| && s[i] == '<' ensures '>' in s[i..] {
      if i < |a| {
        assert '>' in a[i..] && s[i..] == a[i..] + b;
      } else {
        assert s[i..] == b[i - |a|..] && b[i - |a|] == '<';
      }
    }
    forall k ensures !At(Lower(s), k, Opening(tag)) {
      if k >= |a| && At(Lower(s), k, Opening(tag)) {
        AtInTail(a, b, k, Opening(tag));
      }
    }
  }

  /** A block after quiet text is the first thing cut out, and nothing else with it. */
  lemma {:induction false} BlockIsCut(a: string, b: string, c: string, tag: string)
    requires Quiet(a, tag) && Block(b, tag) && '>' !in tag
    ensures TagStripped(a + b + c, tag) == TagStripped(a + c, tag)
  {
    OpensAfterQuiet(a, b, c, tag);
    LowerTail(a, b, c);
    ClosesWithBlock(b, c, tag);
    CutOut(a, b, c, tag);
  }

  lemma {:induction false} LowerTail(a: string, b: string, c: string)
    ensures Lower(a + b + c)[|a|..] == Lower(b) + Lower(c)
  {
    LowerConcat(a + b, c);
    LowerConcat(a, b);
    TailOf(Lower(a), Lower(b), Lower(c));
  }

  lemma {:induction false} TailOf(a: string, b: string, c: string)
    ensures (a + b + c)[|a|..] == b + c
  {
  }

  lemma {:induction false} CutOut(a: string, b: string, c: string, tag: string)
    requires At(Lower(a + b + c), |a|, Opening(tag)) && |b| >= |Closing(tag)|
    requires IndexOf(Lower(a + b + c)[|a|..], Closing(tag)) == |b| - |Closing(tag)|
    ensures CutFirst(a + b + c, |a|, tag) == a + c
  {
    assert (a + b + c)[..|a|] == a && (a + b + c)[|a| + |b|..] == c;
  }

  lemma {:induction false} OpensAfterQuiet(a: string, b: string, c: string, tag: string)
    requires Quiet(a, tag) && At(Lower(b), 0, Opening(tag)) && '>' !in tag
    ensures IndexOf(Lower(a + b + c), Opening(tag)) == |a|
  {
    QuietBefore(a, b + c, tag);
    assert a + b + c == a + (b + c);
    AtAfter(Lower(a), Lower(b), Lower(c), Opening(tag));
    LowerConcat(a, b + c);
    LowerConcat(b, c);
    IndexIs(Lower(a + b + c), Opening(tag), |a|);
  }

  lemma {:induction false} AtAfter(a: string, b: string, c: string, pat: string)
    requires At(b, 0, pat)
    ensures At(a + (b + c), |a|, pat)
  {
    assert (a + (b + c))[|a|..|a| + |pat|] == b[0..|pat|];
  }

  lemma {:induction false} ClosesWithBlock(b: string, c: string, tag: string)
    requires Block(b, tag)
    ensures IndexOf(Lower(b) + Lower(c), Closing(tag)) == |b| - |Closing(tag)|
  {
    var s := Lower(b) + Lower(c);
    var n := |Closing(tag)|;
    var at := |b| - n;
    assert s[at..at + n] == Lower(b)[at..at + n];
    forall k | 0 <= k < at ensures !At(s, k, Closing(tag)) {
      assert s[k..k + n] == Lower(b)[k..k + n];
      assert !At(Lower(b), k, Closing(tag));
    }
    IndexIs(s, Closing(tag), at);
  }

  function Concat(texts: seq<string>): string {
    if texts == [] then "" else texts[0] + Concat(texts[1..])
  }

  /** The pieces that are not blocks. */
  function Without(pieces: seq<string>, tag: string): seq<string> {
    if pieces == [] then []
    else (if Block(pieces[0], tag) then [] else [pieces[0]]) + Without(pieces[1..], tag)
  }

  /** Of quiet pieces and closed blocks in any order the blocks go, whatever follows them. */
  lemma {:induction false} BlocksGo(before: string, pieces: seq<string>, rest: string, tag: string)
    requires Quiet(before, tag) && '>' !in tag
    requires Handled(pieces, tag)
    ensures Quiet(before + Concat(Without(pieces, tag)), tag)
    ensures TagStripped(before + Concat(pieces) + rest, tag) == TagStripped(before + Concat(Without(pieces, tag)) + rest, tag)
    decreases |pieces|
  {
    if pieces == [] {
      assert before + "" == before;
    } else if Block(pieces[0], tag) {
      BlockGoes(before, pieces, rest, tag);
      BlocksGo(before, pieces[1..], rest, tag);
    } else {
      QuietConcat(before, pieces[0], tag);
      BlocksGo(before + pieces[0], pieces[1..], rest, tag);
      QuietKept(before, pieces, tag);
    }
  }

  /** With nothing after them, exactly the blocks go. */
  lemma {:induction false} OnlyBlocksGo(before: string, pieces: seq<string>, tag: string)
    requires Quiet(before, tag) && '>' !in tag
    requires Handled(pieces, tag)
    ensures TagStripped(before + Concat(pieces), tag) == before + Concat(Without(pieces, tag))
  {
    BlocksGo(before, pieces, "", tag);
    assert before + Concat(pieces) + "" == before + Concat(pieces);
    assert before + Concat(Without(pieces, tag)) + "" == before + Concat(Without(pieces, tag));
    NothingToStrip(before + Concat(Without(pieces, tag)), tag);
  }

  lemma {:induction false} BlockGoes(before: string, pieces: seq<string>, rest: string, tag: string)
    requires Quiet(before, tag) && '>' !in tag && pieces != [] && Block(pieces[0], tag)
    ensures TagStripped(before + Concat(pieces) + rest, tag) == TagStripped(before + Concat(pieces[1..]) + rest, tag)
    ensures Without(pieces, tag) == Without(pieces[1..], tag)
  {
    var after := Concat(pieces[1..]) + rest;
    assert before + Concat(pieces) + rest == before + pieces[0] + after;
    assert before + Concat(pieces[1..]) + rest == before + after;
    BlockIsCut(before, pieces[0], after, tag);
  }

  lemma {:induction false} QuietKept(before: string, pieces: seq<string>, tag: string)
    requires pieces != [] && !Block(pieces[0], tag)
    ensures before + Concat(pieces) == before + pieces[0] + Concat(pieces[1..])
    ensures before + pieces[0] + Concat(Without(pieces[1..], tag)) == before + Concat(Without(pieces, tag))
  {
    ConcatFront(pieces[0], Without(pieces[1..], tag));
  }

  /** An opening that is never closed, such as that of a tag whose name merely begins alike. */
  predicate Unclosed(rest: string, tag: string) {
    At(Lower(rest), 0, Opening(tag)) && IndexOf(Lower(rest), Closing(tag)) < 0
  }

  lemma {:induction false} UnclosedCutsOff(before: string, rest: string, tag: string)
    requires Quiet(before, tag) && '>' !in tag && Unclosed(rest, tag)
    ensures TagStripped(before + rest, tag) == before
  {
    var s := before + rest;
    OpensAfterQuiet(before, rest, "", tag);
    assert before + rest + "" == s;
    LowerConcat(before, rest);
    assert Lower(s)[|before|..] == Lower(rest) && s[..|before|] == before;
    StripTurn(s, |before|, tag);
    NothingToStrip(before, tag);
  }

  lemma {:induction false} QuietThenNoOpening(before: string, rest: string, tag: string)
    requires Quiet(before, tag) && '>' !in tag && NoOpening(rest, tag)
    ensures TagStripped(before + rest, tag) == before + rest
  {
    QuietBefore(before, rest, tag);
    forall k ensures !At(Lower(before + rest), k, Opening(tag)) {
      if k >= |before| && At(Lower(before + rest), k, Opening(tag)) {
        AtInTail(before, rest, k, Opening(tag));
      }
    }
    NothingToStrip(before + rest, tag);
  }

  lemma {:induction false} ConcatFront(t: string, texts: seq<string>)
    ensures Concat([t] + texts) == t + Concat(texts)
  {
    assert ([t] + texts)[1..] == texts;
  }

  // ----- tags --------------------------------------------------------------------------------

  function Visible(s: string, inside: bool): string {
    if s == "" then ""
    else if s[0] == '<' then Visible(s[1..], true)
    else if s[0] == '>' then " " + Visible(s[1..], false)
    else (if inside then "" else [s[0]]) + Visible(s[1..], inside)
  }

  lemma {:induction false} VisibleHasNoBrackets(s: string, inside: bool)
    ensures '<' !in Visible(s, inside) && '>' !in Visible(s, inside)
  {
    if s != "" {
      VisibleHasNoBrackets(s[1..], true);
      VisibleHasNoBrackets(s[1..], false);
    }
  }

  lemma {:induction false} VisibleOfPlain(s: string)
    requires '<' !in s && '>' !in s
    ensures Visible(s, false) == s
  {
    if s != "" {
      assert s == [s[0]] + s[1..];
      VisibleOfPlain(s[1..]);
    }
  }

  // ----- white space ------------------------------------------------------------------------

  /** Where the word starting s ends. */
  function WordEnd(s: string): (n: nat)
    ensures n <= |s| && (forall i :: 0 <= i < n ==> !IsSpace(s[i])) && (n < |s| ==> IsSpace(s[n]))
    ensures s != "" && !IsSpace(s[0]) ==> n > 0
  {
    if s == "" || IsSpace(s[0]) then 0
    else
      var rest := WordEnd(s[1..]);
      assert forall i :: 1 <= i < |s| ==> s[i] == s[1..][i - 1];
      rest + 1
  }

  /** strings.Fields. */
  function Fields(s: string): seq<string>
    decreases |s|
  {
    if s == "" then []
    else if IsSpace(s[0]) then Fields(s[1..])
    else [s[..WordEnd(s)]] + Fields(s[WordEnd(s)..])
  }

  /** strings.Join(words, " "). */
  function Join(words: seq<string>): string {
    if words == [] then ""
    else if |words| == 1 then words[0]
    else words[0] + " " + Join(words[1..])
  }

  predicate Word(w: string) {
    w != "" && forall i :: 0 <= i < |w| ==> !IsSpace(w[i])
  }

  predicate Words(ws: seq<string>) {
    forall i :: 0 <= i < |ws| ==> Word(ws[i])
  }

  lemma {:induction false} FieldsAreWords(s: string)
    ensures Words(Fields(s))
    decreases |s|
  {
    if s != "" {
      if IsSpace(s[0]) {
        FieldsAreWords(s[1..]);
      } else {
        FieldsAreWords(s[WordEnd(s)..]);
      }
    }
  }

  lemma {:induction false} FieldsOfWord(w: string, rest: string)
    requires Word(w) && (rest == "" || IsSpace(rest[0]))
    ensures Fields(w + rest) == [w] + Fields(rest)
  {
    var s := w + rest;
    var n := WordEnd(s);
    assert forall i :: 0 <= i < |w| ==> s[i] == w[i];
    assert |w| < |s| ==> s[|w|] == rest[0];
    assert n == |w|;
    assert s[..|w|] == w && s[|w|..] == rest;
  }

  lemma {:induction false} FieldsAfterBlank(w: string, rest: string)
    requires Word(w)
    ensures Fields(w + " " + rest) == [w] + Fields(rest)
  {
    FieldsOfWord(w, " " + rest);
    assert w + " " + rest == w + (" " + rest);
    assert (" " + rest)[1..] == rest;
  }

  /** Words joined and split again are the same words. */
  lemma {:induction false} FieldsOfJoin(ws: seq<string>)
    requires Words(ws)
    ensures Fields(Join(ws)) == ws
  {
    if |ws| == 1 {
      assert ws[0] + "" == ws[0];
      FieldsOfWord(ws[0], "");
      assert ws == [ws[0]];
    } else if |ws| > 1 {
      FieldsOfJoin(ws[1..]);
      FieldsAfterBlank(ws[0], Join(ws[1..]));
      assert ws == [ws[0]] + ws[1..];
    }
  }

  /** No leading, trailing or doubled white space, and none but the plain blank. */
  predicate Collapsed(s: string) {
    && (s != "" ==> !IsSpace(s[0]) && !IsSpace(s[|s| - 1]))
    && forall i :: 0 <= i < |s| && IsSpace(s[i]) ==> s[i] == ' ' && i + 1 < |s| && !IsSpace(s[i + 1])
  }

  lemma {:induction false} JoinCollapsed(ws: seq<string>)
    requires Words(ws)
    ensures Collapsed(Join(ws)) && (ws != [] ==> Join(ws) != "")
  {
    if |ws| == 1 {
      assert Word(ws[0]);
    } else if |ws| > 1 {
      JoinCollapsed(ws[1..]);
      assert Word(ws[0]);
      CollapsedStep(ws[0], Join(ws[1..]));
    }
  }

  lemma {:induction false} CollapsedStep(w: string, rest: string)
    requires Word(w) && Collapsed(rest) && rest != ""
    ensures Collapsed(w + " " + rest)
  {
    var s := w + " " + rest;
    assert s[0] == w[0] && s[|s| - 1] == rest[|rest| - 1] && s[|w|] == ' ' && s[|w| + 1] == rest[0];
    assert forall i :: 0 <= i < |w| ==> s[i] == w[i];
    forall i | 0 <= i < |s| && IsSpace(s[i]) ensures s[i] == ' ' && i + 1 < |s| && !IsSpace(s[i + 1]) {
      if i > |w| {
        var j := i - |w| - 1;
        assert s[i] == rest[j];
        assert s[i + 1] == rest[j + 1];
      }
    }
  }

  /** The characters of s that are not white space, in order. */
  function Ink(s: string): string {
    if s == "" then "" else (if IsSpace(s[0]) then "" else [s[0]]) + Ink(s[1..])
  }

  lemma {:induction false} InkConcat(a: string, b: string)
    ensures Ink(a + b) == Ink(a) + Ink(b)
  {
    if a == "" {
      assert a + b == b;
    } else {
      assert (a + b)[1..] == a[1..] + b;
      InkConcat(a[1..], b);
    }
  }

  lemma {:induction false} InkOfWord(w: string)
    requires forall i :: 0 <= i < |w| ==> !IsSpace(w[i])
    ensures Ink(w) == w
  {
    if w != "" {
      InkOfWord(w[1..]);
      assert w == [w[0]] + w[1..];
    }
  }

  /** Collapsing moves and loses no visible character. */
  lemma {:induction false} InkKept(s: string)
    ensures Ink(Join(Fields(s))) == Ink(s)
    decreases |s|
  {
    if s != "" {
      if IsSpace(s[0]) {
        InkKept(s[1..]);
      } else {
        var n := WordEnd(s);
        assert s == s[..n] + s[n..];
        InkConcat(s[..n], s[n..]);
        InkKept(s[n..]);
        InkOfJoin(s[..n], Fields(s[n..]));
      }
    }
  }

  lemma {:induction false} InkOfJoin(w: string, ws: seq<string>)
    ensures Ink(Join([w] + ws)) == Ink(w) + Ink(Join(ws))
  {
    var all := [w] + ws;
    if ws != [] {
      assert all[1..] == ws;
      InkConcat(w + " ", Join(ws));
      InkConcat(w, " ");
      assert Ink(" ") == "" by {
        assert " "[1..] == "";
      }
    } else {
      assert all[0] == w && Ink(w) + "" == Ink(w);
    }
  }

  // ----- the whole ----------------------------------------------------------------------------

  function Text(body: string): string {
    Join(Fields(Visible(TagStripped(TagStripped(body, "script"), "style"), false)))
  }

  method DropTags(s: string) returns (b: string)
    ensures b == Visible(s, false)
  {
    b := "";
    var inside := false;
    var i := 0;
    assert s[0..] == s && "" + Visible(s, false) == Visible(s, false);
    while i < |s|
      invariant 0 <= i <= |s|
      invariant b + Visible(s[i..], inside) == Visible(s, false)
    {
      var c := s[i];
      VisibleStep(b, s[i..], inside);
      assert s[i..][1..] == s[i + 1..];
      if c == '<' {
        inside := true;
      } else if c == '>' {
        inside := false;
        b := b + " ";
      } else if !inside {
        b := b + [c];
      }
      i := i + 1;
    }
    assert s[i..] == "" && b + "" == b;
  }

  /** One character read. */
  lemma {:induction false} VisibleStep(b: string, s: string, inside: bool)
    requires s != ""
    ensures s[0] == '<' ==> b + Visible(s, inside) == b + Visible(s[1..], true)
    ensures s[0] == '>' ==> b + Visible(s, inside) == (b + " ") + Visible(s[1..], false)
    ensures s[0] != '<' && s[0] != '>' && inside ==> b + Visible(s, inside) == b + Visible(s[1..], true)
    ensures s[0] != '<' && s[0] != '>' && !inside ==> b + Visible(s, inside) == (b + [s[0]]) + Visible(s[1..], false)
  {
    if s[0] == '>' {
      ConcatAssoc(b, " ", Visible(s[1..], false));
    } else if s[0] != '<' && !inside {
      ConcatAssoc(b, [s[0]], Visible(s[1..], false));
    } else if s[0] != '<' {
      assert Visible(s, inside) == Visible(s[1..], true);
    }
  }

  lemma {:induction false} ConcatAssoc(a: string, b: string, c: string)
    ensures a + (b + c) == (a + b) + c
  {
  }

  method StripToText(body: string) returns (text: string)
    ensures text == Text(body)
    ensures '<' !in text && '>' !in text && Collapsed(text)
  {
    var s := StripTagBlock(body, "script");
    s := StripTagBlock(s, "style");
    var b := DropTags(s);
    text := Join(Fields(b));
    VisibleHasNoBrackets(s, false);
    FieldsAreWords(b);
    JoinCollapsed(Fields(b));
    JoinHasNoBrackets(b);
  }

  lemma {:induction false} JoinHasNoBrackets(s: string)
    requires '<' !in s && '>' !in s
    ensures '<' !in Join(Fields(s)) && '>' !in Join(Fields(s))
  {
    InkKept(s);
    var t := Join(Fields(s));
    if '<' in t {
      InkHas(t, '<');
      InkFrom(s, '<');
    }
    if '>' in t {
      InkHas(t, '>');
      InkFrom(s, '>');
    }
  }

  lemma {:induction false} InkHas(s: string, c: char)
    requires c in s && !IsSpace(c)
    ensures c in Ink(s)
  {
    if s[0] != c {
      assert s == [s[0]] + s[1..];
      InkHas(s[1..], c);
    }
  }

  lemma {:induction false} InkFrom(s: string, c: char)
    requires c in Ink(s)
    ensures c in s
  {
    if s != "" && s[0] != c {
      InkFrom(s[1..], c);
    }
  }

  /** Plain text with collapsed white space is left as it is. */
  lemma {:induction false} TextOfText(words: seq<string>)
    requires Words(words) && '<' !in Join(words) && '>' !in Join(words)
    ensures Text(Join(words)) == Join(words)
  {
    PlainIsQuiet(Join(words), "script");
    PlainIsQuiet(Join(words), "style");
    NothingToStrip(Join(words), "script");
    NothingToStrip(Join(words), "style");
    VisibleOfPlain(Join(words));
    FieldsOfJoin(words);
  }

  /** Stripping twice is stripping once. */
  lemma {:induction false} TextIdempotent(body: string)
    ensures Text(Text(body)) == Text(body)
  {
    var s := TagStripped(TagStripped(body, "script"), "style");
    VisibleHasNoBrackets(s, false);
    JoinHasNoBrackets(Visible(s, false));
    FieldsAreWords(Visible(s, false));
    TextOfText(Fields(Visible(s, false)));
  }

  lemma {:induction false} TextHasNoBrackets(body: string)
    ensures '<' !in Text(body) && '>' !in Text(body)
  {
    var s := TagStripped(TagStripped(body, "script"), "style");
    VisibleHasNoBrackets(s, false);
    JoinHasNoBrackets(Visible(s, false));
  }

  /** The text holds every visible character of the page, in order, exactly when the page has no bracket. */
  lemma {:induction false} PlainPageKept(body: string)
    ensures Ink(Text(body)) == Ink(body) <==> '<' !in body && '>' !in body
  {
    if '<' !in body && '>' !in body {
      PlainIsQuiet(body, "script");
      PlainIsQuiet(body, "style");
      NothingToStrip(body, "script");
      NothingToStrip(body, "style");
      VisibleOfPlain(body);
      InkKept(body);
    } else {
      var c := if '<' in body then '<' else '>';
      InkHas(body, c);
      TextHasNoBrackets(body);
      if c in Ink(Text(body)) {
        InkFrom(Text(body), c);
      }
    }
  }

  // ----- what a well-formed page shows ---------------------------------------------------------

  datatype Piece = Plain(text: string) | Tag(text: string) | Script(text: string) | Style(text: string)

  /** Text without brackets, one tag, or one whole block; a style block holds no script opening. */
  ghost predicate PieceOk(p: Piece) {
    match p
    case Plain(t) => '<' !in t && '>' !in t
    case Tag(t) =>
      && |t| >= 2 && t[0] == '<' && t[|t| - 1] == '>'
      && '<' !in t[1..|t| - 1] && '>' !in t[1..|t| - 1]
      && !At(Lower(t), 0, Opening("script")) && !At(Lower(t), 0, Opening("style"))
    case Script(t) => Block(t, "script")
    case Style(t) => Block(t, "style") && forall k :: !At(Lower(t), k, Opening("script"))
  }

  ghost predicate Page(pieces: seq<Piece>) {
    forall i :: 0 <= i < |pieces| ==> PieceOk(pieces[i])
  }

  function Sources(pieces: seq<Piece>): seq<string> {
    if pieces == [] then [] else [pieces[0].text] + Sources(pieces[1..])
  }

  /** What a reader sees: texts as they stand, a blank for each tag, nothing for a block. */
  function Shown(pieces: seq<Piece>): string {
    if pieces == [] then ""
    else (match pieces[0] case Plain(t) => t case Tag(_) => " " case _ => "") + Shown(pieces[1..])
  }

  /** The pieces a pass cuts out: scripts in the first, styles in the second. */
  predicate Cut(p: Piece, scripts: bool) {
    if scripts then p.Script? else p.Style?
  }

  function PassTag(scripts: bool): string {
    if scripts then "script" else "style"
  }

  function Drop(pieces: seq<Piece>, scripts: bool): seq<Piece> {
    if pieces == [] then []
    else if Cut(pieces[0], scripts) then Drop(pieces[1..], scripts)
    else [pieces[0]] + Drop(pieces[1..], scripts)
  }

  lemma {:induction false} PlainIsQuiet(t: string, tag: string)
    requires '<' !in t
    ensures Quiet(t, tag)
  {
    OpeningsHaveBracket(t, tag);
  }

  lemma {:induction false} EndsSealed(t: string)
    requires t != "" && t[|t| - 1] == '>'
    ensures Sealed(t)
  {
    forall i | 0 <= i < |t| && t[i] == '<' ensures '>' in t[i..] {
      assert t[i..][|t| - 1 - i] == '>';
    }
  }

  lemma {:induction false} TagIsQuiet(t: string, tag: string)
    requires |t| >= 2 && t[0] == '<' && t[|t| - 1] == '>' && '<' !in t[1..|t| - 1]
    requires !At(Lower(t), 0, Opening(tag))
    ensures Quiet(t, tag)
  {
    EndsSealed(t);
    OpeningsHaveBracket(t, tag);
    assert forall k :: 0 < k < |t| - 1 ==> t[k] == t[1..|t| - 1][k - 1];
  }

  lemma {:induction false} BlockEnds(t: string, tag: string)
    requires Block(t, tag)
    ensures t != "" && t[|t| - 1] == '>'
  {
    var n := |Closing(tag)|;
    AtChar(Lower(t), |t| - n, Closing(tag), n - 1);
    assert LowerChar(t[|t| - 1]) == '>';
  }

  lemma {:induction false} QuietIsNoBlock(t: string, tag: string)
    requires Quiet(t, tag)
    ensures !Block(t, tag)
  {
  }

  /** A piece meets a pass as a block of that tag, or quietly. */
  lemma {:induction false} PieceInPass(p: Piece, scripts: bool)
    requires PieceOk(p) && (scripts || !p.Script?)
    ensures Block(p.text, PassTag(scripts)) <==> Cut(p, scripts)
    ensures Block(p.text, PassTag(scripts)) || Quiet(p.text, PassTag(scripts))
  {
    var tag := PassTag(scripts);
    match p
    case Plain(t) => PlainIsQuiet(t, tag); QuietIsNoBlock(t, tag);
    case Tag(t) => TagIsQuiet(t, tag); QuietIsNoBlock(t, tag);
    case Script(t) =>
    case Style(t) =>
      if scripts {
        BlockEnds(t, "style");
        EndsSealed(t);
        QuietIsNoBlock(t, tag);
      }
  }

  ghost predicate Handled(sources: seq<string>, tag: string) {
    forall i :: 0 <= i < |sources| ==> Block(sources[i], tag) || Quiet(sources[i], tag)
  }

  lemma {:induction false} PassDrops(pieces: seq<Piece>, scripts: bool)
    requires Page(pieces) && forall i :: 0 <= i < |pieces| ==> scripts || !pieces[i].Script?
    ensures Handled(Sources(pieces), PassTag(scripts))
    ensures Without(Sources(pieces), PassTag(scripts)) == Sources(Drop(pieces, scripts))
  {
    if pieces != [] {
      assert PieceOk(pieces[0]);
      PieceInPass(pieces[0], scripts);
      PassDrops(pieces[1..], scripts);
      HandledFront(pieces[0].text, Sources(pieces[1..]), PassTag(scripts));
      SourcesFront(pieces[0], Drop(pieces[1..], scripts));
    }
  }

  lemma {:induction false} HandledFront(t: string, sources: seq<string>, tag: string)
    requires (Block(t, tag) || Quiet(t, tag)) && Handled(sources, tag)
    ensures Handled([t] + sources, tag)
    ensures Without([t] + sources, tag) == (if Block(t, tag) then [] else [t]) + Without(sources, tag)
  {
    assert ([t] + sources)[1..] == sources;
  }

  lemma {:induction false} SourcesFront(p: Piece, pieces: seq<Piece>)
    ensures Sources([p] + pieces) == [p.text] + Sources(pieces)
  {
    assert ([p] + pieces)[1..] == pieces;
  }

  lemma {:induction false} ShownFront(p: Piece, pieces: seq<Piece>)
    ensures Shown([p] + pieces) == (match p case Plain(t) => t case Tag(_) => " " case _ => "") + Shown(pieces)
  {
    assert ([p] + pieces)[1..] == pieces;
  }

  lemma {:induction false} DropKeeps(pieces: seq<Piece>, scripts: bool)
    requires Page(pieces)
    ensures Page(Drop(pieces, scripts)) && Shown(Drop(pieces, scripts)) == Shown(pieces)
    ensures forall p :: p in Drop(pieces, scripts) ==> p in pieces && !Cut(p, scripts)
  {
    if pieces != [] {
      DropKeeps(pieces[1..], scripts);
      assert PieceOk(pieces[0]);
      ShownFront(pieces[0], Drop(pieces[1..], scripts));
      assert "" + Shown(pieces[1..]) == Shown(pieces[1..]);
      assert pieces == [pieces[0]] + pieces[1..];
    }
  }

  lemma {:induction false} VisiblePlain(t: string, rest: string)
    requires '<' !in t && '>' !in t
    ensures Visible(t + rest, false) == t + Visible(rest, false)
  {
    if t == "" {
      assert t + rest == rest && "" + Visible(rest, false) == Visible(rest, false);
    } else {
      assert (t + rest)[1..] == t[1..] + rest;
      VisiblePlain(t[1..], rest);
      assert [t[0]] + (t[1..] + Visible(rest, false)) == t + Visible(rest, false);
    }
  }

  lemma {:induction false} VisibleInside(t: string, rest: string)
    requires '<' !in t && '>' !in t
    ensures Visible(t + (">" + rest), true) == " " + Visible(rest, false)
  {
    if t == "" {
      assert t + (">" + rest) == ">" + rest && (">" + rest)[1..] == rest;
    } else {
      assert (t + (">" + rest))[1..] == t[1..] + (">" + rest);
      VisibleInside(t[1..], rest);
      assert "" + Visible(t[1..] + (">" + rest), true) == Visible(t[1..] + (">" + rest), true);
    }
  }

  lemma {:induction false} VisibleIsShown(pieces: seq<Piece>)
    requires Page(pieces) && forall i :: 0 <= i < |pieces| ==> pieces[i].Plain? || pieces[i].Tag?
    ensures Visible(Concat(Sources(pieces)), false) == Shown(pieces)
  {
    if pieces != [] {
      var rest := Concat(Sources(pieces[1..]));
      VisibleIsShown(pieces[1..]);
      ConcatFront(pieces[0].text, Sources(pieces[1..]));
      assert PieceOk(pieces[0]);
      match pieces[0]
      case Plain(t) => VisiblePlain(t, rest);
      case Tag(t) =>
        var inner := t[1..|t| - 1];
        assert (t + rest)[1..] == inner + (">" + rest);
        VisibleInside(inner, rest);
      case _ =>
    }
  }

  lemma {:induction false} PassOnPage(pieces: seq<Piece>, scripts: bool)
    requires Page(pieces) && forall i :: 0 <= i < |pieces| ==> scripts || !pieces[i].Script?
    ensures TagStripped(Concat(Sources(pieces)), PassTag(scripts)) == Concat(Sources(Drop(pieces, scripts)))
  {
    var tag := PassTag(scripts);
    PlainIsQuiet("", tag);
    PassDrops(pieces, scripts);
    OnlyBlocksGo("", Sources(pieces), tag);
    assert "" + Concat(Sources(pieces)) == Concat(Sources(pieces));
    assert "" + Concat(Without(Sources(pieces), tag)) == Concat(Without(Sources(pieces), tag));
  }

  /** What both passes leave of a page's pieces, and what of it is shown. */
  lemma {:induction false} BothPasses(pieces: seq<Piece>)
    requires Page(pieces)
    ensures var noScript := Drop(pieces, true);
            var shown := Drop(noScript, false);
            && Page(noScript) && (forall i :: 0 <= i < |noScript| ==> !noScript[i].Script?)
            && Visible(Concat(Sources(shown)), false) == Shown(pieces)
  {
    var noScript := Drop(pieces, true);
    var shown := Drop(noScript, false);
    DropKeeps(pieces, true);
    DropKeeps(noScript, false);
    assert forall i :: 0 <= i < |noScript| ==> noScript[i] in noScript;
    assert forall i :: 0 <= i < |shown| ==> shown[i] in shown;
    VisibleIsShown(shown);
  }

  /**
   * Of a page made of text, tags and whole script and style blocks, in any letter case and any
   * order, the stripper keeps exactly what a reader sees, white space collapsed.
   */
  lemma {:induction false} PageText(pieces: seq<Piece>)
    requires Page(pieces)
    ensures Text(Concat(Sources(pieces))) == Join(Fields(Shown(pieces)))
  {
    BothPasses(pieces);
    PassOnPage(pieces, true);
    PassOnPage(Drop(pieces, true), false);
  }

  lemma {:induction false} PassBeforeRest(pieces: seq<Piece>, rest: string, scripts: bool)
    requires Page(pieces) && forall i :: 0 <= i < |pieces| ==> scripts || !pieces[i].Script?
    ensures Quiet(Concat(Sources(Drop(pieces, scripts))), PassTag(scripts))
    ensures TagStripped(Concat(Sources(pieces)) + rest, PassTag(scripts))
            == TagStripped(Concat(Sources(Drop(pieces, scripts))) + rest, PassTag(scripts))
  {
    var tag := PassTag(scripts);
    PlainIsQuiet("", tag);
    PassDrops(pieces, scripts);
    BlocksGo("", Sources(pieces), rest, tag);
    assert "" + Concat(Sources(pieces)) == Concat(Sources(pieces));
    assert "" + Concat(Without(Sources(pieces), tag)) == Concat(Without(Sources(pieces), tag));
  }

  lemma {:induction false} UnclosedScriptHidesRest(pieces: seq<Piece>, rest: string)
    requires Page(pieces) && Unclosed(rest, "script")
    ensures TagStripped(Concat(Sources(pieces)) + rest, "script") == Concat(Sources(Drop(pieces, true)))
  {
    PassBeforeRest(pieces, rest, true);
    UnclosedCutsOff(Concat(Sources(Drop(pieces, true))), rest, "script");
  }

  lemma {:induction false} UnclosedStyleHidesRest(pieces: seq<Piece>, rest: string)
    requires Page(pieces) && Unclosed(rest, "style") && NoOpening(rest, "script")
    requires forall i :: 0 <= i < |Drop(pieces, true)| ==> !Drop(pieces, true)[i].Script?
    requires Page(Drop(pieces, true))
    ensures TagStripped(TagStripped(Concat(Sources(pieces)) + rest, "script"), "style")
            == Concat(Sources(Drop(Drop(pieces, true), false)))
  {
    var noScript := Drop(pieces, true);
    PassBeforeRest(pieces, rest, true);
    QuietThenNoOpening(Concat(Sources(noScript)), rest, "script");
    PassBeforeRest(noScript, rest, false);
    UnclosedCutsOff(Concat(Sources(Drop(noScript, false))), rest, "style");
  }

  /**
   * After such a page, an opening that is never closed hides the rest: that of a script or style
   * block, or of any tag whose name merely begins so, like "<style-guide>".
   */
  lemma {:induction false} UnclosedHidesRest(pieces: seq<Piece>, rest: string, scripts: bool)
    requires Page(pieces) && Unclosed(rest, PassTag(scripts)) && (scripts || NoOpening(rest, "script"))
    ensures Text(Concat(Sources(pieces)) + rest) == Join(Fields(Shown(pieces)))
  {
    BothPasses(pieces);
    if scripts {
      UnclosedScriptHidesRest(pieces, rest);
      PassOnPage(Drop(pieces, true), false);
    } else {
      UnclosedStyleHidesRest(pieces, rest);
    }
  }

  lemma {:induction false} HiddenInside(t: string)
    requires '<' !in t && '>' !in t
    ensures Visible(t, true) == ""
  {
    if t != "" {
      HiddenInside(t[1..]);
    }
  }

  /** Outside such pages text can go: after a bare '<' everything is hidden up to the next '>', here none. */
  lemma {:induction false} BareBracketHidesRest(a: string, t: string, tag: string)
    requires '<' !in a && '>' !in a && '<' !in t && '>' !in t
    requires tag == "script" || tag == "style"
    requires t == "" || LowerChar(t[0]) != 's'
    ensures TagStripped(a + ("<" + t), tag) == a + ("<" + t)
    ensures Visible(a + ("<" + t), false) == a
  {
    var s := a + ("<" + t);
    OpeningsHaveBracket(s, tag);
    assert forall i :: 0 <= i < |a| ==> s[i] == a[i];
    assert forall i :: |a| < i < |s| ==> s[i] == t[i - |a| - 1];
    OpeningsHaveLetter(s, tag);
    VisiblePlain(a, "<" + t);
    assert ("<" + t)[1..] == t;
    HiddenInside(t);
    assert a + "" == a;
  }

  lemma {:induction false} BareBracketText(a: string, t: string)
    requires '<' !in a && '>' !in a && '<' !in t && '>' !in t
    requires t == "" || LowerChar(t[0]) != 's'
    ensures Text(a + ("<" + t)) == Join(Fields(a))
  {
    BareBracketHidesRest(a, t, "script");
    BareBracketHidesRest(a, t, "style");
  }
}
