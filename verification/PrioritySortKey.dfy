/**
 * The queue's sort key, "%.4f#id": its byte order, its parsing, and the priority score it encodes.
 * Scores are reals; formatting may round a tie either way.
 */
module PrioritySortKey {
  import opened Common
  import ProfileEtags

  // ----- fixed-width decimals -------------------------------------------------------------

  function Pow10(w: nat): (p: nat)
    ensures p > 0
  {
    if w == 0 then 1 else 10 * Pow10(w - 1)
  }

  function Digit(d: nat): char
    requires d < 10
  {
    '0' + d as char
  }

  function Digits(n: nat, w: nat): (s: string)
    ensures |s| == w
    ensures forall i :: 0 <= i < w ==> '0' <= s[i] <= '9'
  {
    if w == 0 then "" else Digits(n / 10, w - 1) + [Digit(n % 10)]
  }

  /** n ten-thousandths, as "%.4f" prints them. */
  function Text(n: nat): string {
    Digits(n / 10_000, 1) + "." + Digits(n % 10_000, 4)
  }

  function Key(n: nat, id: string): string {
    Text(n) + "#" + id
  }

  /** n is x rounded to four places, in ten-thousandths. */
  predicate Nearest(x: real, n: nat) {
    -0.5 <= x * 10_000.0 - n as real <= 0.5
  }

  // ----- byte order -----------------------------------------------------------------------

  predicate Less(a: string, b: string) {
    if b == "" then false
    else if a == "" then true
    else if a[0] != b[0] then a[0] < b[0]
    else Less(a[1..], b[1..])
  }

  lemma {:induction false} LessIrreflexive(a: string)
    ensures !Less(a, a)
  {
    if a != "" {
      LessIrreflexive(a[1..]);
    }
  }

  /** A common prefix does not matter. */
  lemma {:induction false} LessUnderPrefix(p: string, a: string, b: string)
    ensures Less(p + a, p + b) <==> Less(a, b)
  {
    if p == "" {
      assert p + a == a && p + b == b;
    } else {
      assert (p + a)[1..] == p[1..] + a && (p + b)[1..] == p[1..] + b;
      LessUnderPrefix(p[1..], a, b);
    }
  }

  /** Different prefixes of one length decide. */
  lemma {:induction false} LessByPrefix(p: string, q: string, a: string, b: string)
    requires |p| == |q| && p != q
    ensures Less(p + a, q + b) <==> Less(p, q)
  {
    if p[0] == q[0] {
      assert (p + a)[1..] == p[1..] + a && (q + b)[1..] == q[1..] + b;
      assert p == [p[0]] + p[1..] && q == [q[0]] + q[1..];
      LessByPrefix(p[1..], q[1..], a, b);
    }
  }

  lemma {:induction false} LastCharDecides(p: string, c: char, d: char)
    ensures Less(p + [c], p + [d]) <==> c < d
    ensures p + [c] == p + [d] <==> c == d
  {
    LessUnderPrefix(p, [c], [d]);
    assert (p + [c])[|p|] == c && (p + [d])[|p|] == d;
    assert [c][1..] == "" && [d][1..] == "";
  }

  /** One digit more on both sides. */
  lemma {:induction false} MoreDigits(p: string, q: string, c: char, d: char)
    requires |p| == |q| && p != q
    ensures Less(p + [c], q + [d]) <==> Less(p, q)
    ensures p + [c] != q + [d]
  {
    LessByPrefix(p, q, [c], [d]);
    assert (p + [c])[..|p|] == p && (q + [d])[..|q|] == q;
  }

  /** Fixed-width digits order as numbers do. */
  lemma {:induction false} DigitsOrder(n: nat, m: nat, w: nat)
    requires n < Pow10(w) && m < Pow10(w)
    ensures Less(Digits(n, w), Digits(m, w)) <==> n < m
    ensures Digits(n, w) == Digits(m, w) <==> n == m
  {
    if w > 0 {
      DigitsOrder(n / 10, m / 10, w - 1);
      if n / 10 == m / 10 {
        LastCharDecides(Digits(n / 10, w - 1), Digit(n % 10), Digit(m % 10));
      } else {
        MoreDigits(Digits(n / 10, w - 1), Digits(m / 10, w - 1), Digit(n % 10), Digit(m % 10));
      }
    }
  }

  lemma {:induction false} TextOrder(n: nat, m: nat)
    requires n <= 10_000 && m <= 10_000
    ensures Less(Text(n), Text(m)) <==> n < m
    ensures Text(n) == Text(m) <==> n == m
  {
    SmallPowers();
    var p, q := Digits(n / 10_000, 1), Digits(m / 10_000, 1);
    var a, b := "." + Digits(n % 10_000, 4), "." + Digits(m % 10_000, 4);
    assert Text(n) == p + a && Text(m) == q + b;
    assert Text(n)[..1] == p && Text(m)[..1] == q && Text(n)[1..] == a && Text(m)[1..] == b;
    DigitsOrder(n / 10_000, m / 10_000, 1);
    DigitsOrder(n % 10_000, m % 10_000, 4);
    if n / 10_000 == m / 10_000 {
      LessUnderPrefix(p, a, b);
      LessUnderPrefix(".", Digits(n % 10_000, 4), Digits(m % 10_000, 4));
      assert a[1..] == Digits(n % 10_000, 4) && b[1..] == Digits(m % 10_000, 4);
    } else {
      LessByPrefix(p, q, a, b);
    }
  }

  /** Byte order of the keys is numeric order of the rounded priorities, ties broken by id. */
  lemma {:induction false} KeyOrder(n: nat, a: string, m: nat, b: string)
    requires n <= 10_000 && m <= 10_000
    ensures Less(Key(n, a), Key(m, b)) <==> n < m || (n == m && Less(a, b))
  {
    TextOrder(n, m);
    var p, q := Text(n) + "#", Text(m) + "#";
    assert p[..6] == Text(n) && q[..6] == Text(m);
    assert Key(n, a) == p + a && Key(m, b) == q + b;
    if n == m {
      LessUnderPrefix(p, a, b);
    } else {
      LessByPrefix(p, q, a, b);
      LessByPrefix(Text(n), Text(m), "#", "#");
    }
  }

  /** Priorities in [0, 1] round into the fixed width, and rounding never swaps two of them. */
  lemma RoundedPriorities(x: real, n: nat, y: real, m: nat)
    requires 0.0 <= x <= 1.0 && Nearest(x, n) && Nearest(y, m)
    ensures n <= 10_000
    ensures n < m ==> x < y || (x == y && m == n + 1)
  {
    assert (n as real) <= 10_000.5;
    if n < m {
      assert (n as real) + 1.0 <= m as real;
      if m > n + 1 {
        assert (n as real) + 2.0 <= m as real;
      }
    }
  }

  /** The queue's order: of two businesses the one with the clearly higher priority comes last in key order. */
  lemma {:induction false} HigherPrioritySortsHigher(x: real, n: nat, a: string, y: real, m: nat, b: string)
    requires 0.0 <= x <= 1.0 && 0.0 <= y <= 1.0 && Nearest(x, n) && Nearest(y, m)
    requires x + 0.0001 < y
    ensures Less(Key(n, a), Key(m, b)) && !Less(Key(m, b), Key(n, a))
  {
    RoundedPriorities(x, n, y, m);
    RoundedPriorities(y, m, x, n);
    assert n < m;
    KeyOrder(n, a, m, b);
    KeyOrder(m, b, n, a);
  }

  // ----- parsing ----------------------------------------------------------------------------

  /** The value of a run of digits, if it is one. */
  function DigitsValue(s: string): Option<nat> {
    if s == "" then Some(0)
    else
      var last := s[|s| - 1];
      var rest := DigitsValue(s[..|s| - 1]);
      if rest.None? || !('0' <= last <= '9') then None
      else Some(10 * rest.value + (last - '0') as nat)
  }

  /** strconv.ParseFloat on plain unsigned decimals. */
  function ParseDecimal(s: string): Option<real> {
    var dot := IndexOfChar(s, '.');
    var whole := if dot < 0 then s else s[..dot];
    var part := if dot < 0 then "" else s[dot + 1..];
    var w, f := DigitsValue(whole), DigitsValue(part);
    if whole + part == "" || w.None? || f.None? then None
    else Some(w.value as real + Scaled(f.value, |part|))
  }

  /** f over ten to the w. */
  function Scaled(f: nat, w: nat): real { f as real / Pow10(w) as real }

  /** The key's priority; a key without one counts as zero. */
  function PriorityFromKey(sk: string): real {
    var i := IndexOfChar(sk, '#');
    if i <= 0 then 0.0
    else
      var f := ParseDecimal(sk[..i]);
      if f.None? then 0.0 else f.value
  }

  lemma {:induction false} DigitsValueOfDigits(n: nat, w: nat)
    requires n < Pow10(w)
    ensures DigitsValue(Digits(n, w)) == Some(n)
  {
    if w > 0 {
      DigitsValueOfDigits(n / 10, w - 1);
      var s := Digits(n, w);
      assert s[..w - 1] == Digits(n / 10, w - 1) && s[w - 1] == Digit(n % 10);
    }
  }

  lemma {:induction false} DecimalParts(whole: string, part: string)
    requires '.' !in whole && whole != ""
    requires DigitsValue(whole).Some? && DigitsValue(part).Some?
    ensures ParseDecimal(whole + "." + part)
            == Some(DigitsValue(whole).value as real + Scaled(DigitsValue(part).value, |part|))
  {
    var s := whole + "." + part;
    FirstSplit(whole, '.', part);
    assert s == whole + ['.'] + part;
    assert s[..|whole|] == whole && s[|whole| + 1..] == part;
  }

  lemma SmallPowers()
    ensures Pow10(1) == 10 && Pow10(4) == 10_000
  {
    assert Pow10(2) == 100 && Pow10(3) == 1_000;
  }

  lemma {:induction false} PartsParse(w: nat, f: nat)
    requires w < 10 && f < 10_000
    ensures ParseDecimal(Digits(w, 1) + "." + Digits(f, 4)) == Some(w as real + Scaled(f, 4))
  {
    SmallPowers();
    DigitsValueOfDigits(w, 1);
    DigitsValueOfDigits(f, 4);
    DecimalParts(Digits(w, 1), Digits(f, 4));
  }

  lemma {:induction false} TextParses(n: nat)
    requires n <= 10_000
    ensures ParseDecimal(Text(n)) == Some(n as real / 10_000.0)
  {
    PartsParse(n / 10_000, n % 10_000);
    SmallPowers();
    TenThousandths(n / 10_000, n % 10_000);
    assert 10_000 * (n / 10_000) + n % 10_000 == n;
  }

  lemma TenThousandths(whole: nat, part: nat)
    ensures whole as real + part as real / 10_000.0 == (10_000 * whole + part) as real / 10_000.0
  {
  }

  /** Parsing gives back the rounded priority, whatever the id, even one with a '#'. */
  lemma {:induction false} KeyRoundTrip(n: nat, id: string)
    requires n <= 10_000
    ensures PriorityFromKey(Key(n, id)) == n as real / 10_000.0
  {
    var text := Text(n);
    TextParses(n);
    FirstSplit(text, '#', id);
    assert Key(n, id) == text + ['#'] + id && Key(n, id)[..|text|] == text;
  }

  /** What the queue shows is within 0.00005 of the score that was encoded. */
  lemma {:induction false} ShownIsClose(x: real, n: nat, id: string)
    requires 0.0 <= x <= 1.0 && Nearest(x, n)
    ensures -0.00005 <= PriorityFromKey(Key(n, id)) - x <= 0.00005
  {
    RoundedPriorities(x, n, x, n);
    KeyRoundTrip(n, id);
  }

  // ----- the score -----------------------------------------------------------------------------

  datatype Audit = Audit(score: int, lighthouse: int, hasContact: bool)

  datatype Input = Input(
    audit: Audit,
    vertical: string,
    confidence: real,
    contact: Option<real>,
    profileVertical: string,
    weights: ProfileEtags.Weights)

  function Clamp01(v: real): real {
    if v < 0.0 then 0.0 else if v > 1.0 then 1.0 else v
  }

  function WebsiteAge(a: Audit): real {
    if a.lighthouse == 0 then 0.0
    else
      var need := Clamp01((100 - a.lighthouse) as real / 100.0);
      if a.hasContact then need else Clamp01(need + 0.1)
  }

  method EqFold(a: string, b: string) returns (same: bool)
    ensures same <==> Lower(a) == Lower(b)
  {
    if |a| != |b| {
      return false;
    }
    for i := 0 to |a|
      invariant forall k :: 0 <= k < i ==> LowerChar(a[k]) == LowerChar(b[k])
    {
      var ca, cb := a[i], b[i];
      if ca >= 'A' && ca <= 'Z' {
        ca := ca + ('a' - 'A');
      }
      if cb >= 'A' && cb <= 'Z' {
        cb := cb + ('a' - 'A');
      }
      if ca != cb {
        assert Lower(a)[i] != Lower(b)[i];
        return false;
      }
    }
    return true;
  }

  function VerticalFit(a: string, b: string): real {
    if Lower(a) == Lower(b) then 1.0 else 0.5
  }

  function Need(x: Input): real { Clamp01((100 - x.audit.score) as real / 100.0) }

  function ContactConfidence(x: Input): real { if x.contact.Some? then Clamp01(x.contact.value) else 0.0 }

  function PriorityScore(x: Input): (score: real)
    ensures 0.0 <= score <= 1.0
  {
    var w := x.weights;
    Clamp01(
      Share(w.auditScore, Need(x))
      + Share(w.verticalFit, VerticalFit(x.vertical, x.profileVertical))
      + Share(w.businessSize, Clamp01(x.confidence))
      + Share(w.contactConfidence, ContactConfidence(x))
      + Share(w.websiteAge, WebsiteAge(x.audit)))
  }

  function Share(weight: real, signal: real): real { weight * signal }

  /** `b` has no better a site than `a`, no worse a contact, and no less confidence. */
  predicate NeedsItMore(a: Input, b: Input) {
    && b.weights == a.weights && b.vertical == a.vertical && b.profileVertical == a.profileVertical
    && b.audit.score <= a.audit.score
    && a.confidence <= b.confidence
    && (a.contact.Some? ==> b.contact.Some? && a.contact.value <= b.contact.value)
    && WebsiteAge(a.audit) <= WebsiteAge(b.audit)
  }

  lemma ShareMonotone(weight: real, u: real, v: real)
    requires weight >= 0.0 && u <= v
    ensures Share(weight, u) <= Share(weight, v)
  {
    assert weight * (v - u) >= 0.0;
  }

  lemma ClampMonotone(a1: real, a2: real, a3: real, a4: real, a5: real, b1: real, b3: real, b4: real, b5: real)
    requires a1 <= b1 && a3 <= b3 && a4 <= b4 && a5 <= b5
    ensures Clamp01(a1 + a2 + a3 + a4 + a5) <= Clamp01(b1 + a2 + b3 + b4 + b5)
  {
  }

  /** With a valid profile's weights, whoever needs a new site more never scores lower. */
  lemma NeedRaisesScore(a: Input, b: Input)
    requires NeedsItMore(a, b)
    requires var w := a.weights;
             w.auditScore >= 0.0 && w.businessSize >= 0.0 && w.contactConfidence >= 0.0 && w.websiteAge >= 0.0
    ensures PriorityScore(a) <= PriorityScore(b)
  {
    var w := a.weights;
    ShareMonotone(w.auditScore, Need(a), Need(b));
    ShareMonotone(w.businessSize, Clamp01(a.confidence), Clamp01(b.confidence));
    ShareMonotone(w.contactConfidence, ContactConfidence(a), ContactConfidence(b));
    ShareMonotone(w.websiteAge, WebsiteAge(a.audit), WebsiteAge(b.audit));
    ClampMonotone(
      Share(w.auditScore, Need(a)),
      Share(w.verticalFit, VerticalFit(a.vertical, a.profileVertical)),
      Share(w.businessSize, Clamp01(a.confidence)),
      Share(w.contactConfidence, ContactConfidence(a)),
      Share(w.websiteAge, WebsiteAge(a.audit)),
      Share(w.auditScore, Need(b)),
      Share(w.businessSize, Clamp01(b.confidence)),
      Share(w.contactConfidence, ContactConfidence(b)),
      Share(w.websiteAge, WebsiteAge(b.audit)));
  }

  /** An older page speed and a missing contact link both age a site, once page speed was measured. */
  lemma WebsiteAgeMonotone(a: Audit, b: Audit)
    requires a.lighthouse != 0 && b.lighthouse != 0 && b.lighthouse <= a.lighthouse
    requires b.hasContact ==> a.hasContact
    ensures 0.0 <= WebsiteAge(a) <= WebsiteAge(b) <= 1.0
  {
  }

  /** The weight of one signal alone. */
  const AGE_ONLY := ProfileEtags.Weights(1.0, 0.0, 0.0, 0.0, 0.0)
  const AUDIT_ONLY := ProfileEtags.Weights(0.0, 1.0, 0.0, 0.0, 0.0)
  const SIZE_ONLY := ProfileEtags.Weights(0.0, 0.0, 1.0, 0.0, 0.0)
  const CONTACT_ONLY := ProfileEtags.Weights(0.0, 0.0, 0.0, 1.0, 0.0)
  const FIT_ONLY := ProfileEtags.Weights(0.0, 0.0, 0.0, 0.0, 1.0)

  function ScoreUnder(x: Input, w: ProfileEtags.Weights): real { PriorityScore(x.(weights := w)) }

  lemma ShareOfUnits(v: real)
    ensures Share(1.0, v) == v && Share(0.0, v) == 0.0
  {
  }

  /** Each signal alone is its score under the weight of one. */
  lemma SignalIsScore(x: Input)
    ensures ScoreUnder(x, AUDIT_ONLY) == Need(x)
    ensures ScoreUnder(x, FIT_ONLY) == VerticalFit(x.vertical, x.profileVertical)
    ensures ScoreUnder(x, SIZE_ONLY) == Clamp01(x.confidence)
    ensures ScoreUnder(x, CONTACT_ONLY) == ContactConfidence(x)
    ensures ScoreUnder(x, AGE_ONLY) == WebsiteAge(x.audit)
  {
    ShareOfUnits(Need(x));
    ShareOfUnits(VerticalFit(x.vertical, x.profileVertical));
    ShareOfUnits(Clamp01(x.confidence));
    ShareOfUnits(ContactConfidence(x));
    ShareOfUnits(WebsiteAge(x.audit));
  }

  lemma NeedMeans(x: Input)
    ensures Need(x) == if x.audit.score <= 0 then 1.0 else if x.audit.score >= 100 then 0.0 else (100 - x.audit.score) as real / 100.0
  {
  }

  /** The audit's need, the vertical's fit, the listing's size and the contact, each weighed alone. */
  lemma SignalsAlone(x: Input)
    ensures ScoreUnder(x, AUDIT_ONLY)
            == if x.audit.score <= 0 then 1.0 else if x.audit.score >= 100 then 0.0 else (100 - x.audit.score) as real / 100.0
    ensures ScoreUnder(x, FIT_ONLY) == if Lower(x.vertical) == Lower(x.profileVertical) then 1.0 else 0.5
    ensures ScoreUnder(x, SIZE_ONLY) == if x.confidence <= 0.0 then 0.0 else if x.confidence >= 1.0 then 1.0 else x.confidence
    ensures x.contact.None? ==> ScoreUnder(x, CONTACT_ONLY) == 0.0
    ensures x.contact.Some? && 0.0 <= x.contact.value <= 1.0 ==> ScoreUnder(x, CONTACT_ONLY) == x.contact.value
  {
    SignalIsScore(x);
    NeedMeans(x);
  }

  /** The age signal alone: none without a measurement, else the slowness, a tenth more without a contact link. */
  lemma AgeAlone(x: Input)
    ensures x.audit.lighthouse == 0 ==> ScoreUnder(x, AGE_ONLY) == 0.0
    ensures 0 < x.audit.lighthouse <= 100 && x.audit.hasContact ==>
              ScoreUnder(x, AGE_ONLY) == (100 - x.audit.lighthouse) as real / 100.0
    ensures 10 <= x.audit.lighthouse <= 100 && !x.audit.hasContact ==>
              ScoreUnder(x, AGE_ONLY) == (110 - x.audit.lighthouse) as real / 100.0
    ensures 0 < x.audit.lighthouse < 10 && !x.audit.hasContact ==> ScoreUnder(x, AGE_ONLY) == 1.0
  {
    SignalIsScore(x);
    if 10 <= x.audit.lighthouse <= 100 {
      assert (100 - x.audit.lighthouse) as real / 100.0 + 0.1 == (110 - x.audit.lighthouse) as real / 100.0;
    }
  }

  /** The score is the weighted sum of the signals alone, cut off at the ends of [0, 1]. */
  lemma ScoreIsWeightedSum(x: Input)
    ensures var w := x.weights;
            var sum := Share(w.auditScore, ScoreUnder(x, AUDIT_ONLY)) + Share(w.verticalFit, ScoreUnder(x, FIT_ONLY))
                       + Share(w.businessSize, ScoreUnder(x, SIZE_ONLY)) + Share(w.contactConfidence, ScoreUnder(x, CONTACT_ONLY))
                       + Share(w.websiteAge, ScoreUnder(x, AGE_ONLY));
            PriorityScore(x) == if sum < 0.0 then 0.0 else if sum > 1.0 then 1.0 else sum
  {
    SignalIsScore(x);
  }
}
