/**
 The order in which recovered events are applied: whatever the relays send, in whatever
 order and however often, sorting and deduplicating yields one list. It is the order of
 the version stamps, because canonical UUID text compares like the bytes it stands for.
 */
module RecoveryOrder {
  import opened Wrappers
  import opened Stamps

  // Text and numbers.

  predicate TextLess(a: string, b: string) {
    if b == "" then false
    else if a == "" then true
    else a[0] < b[0] || (a[0] == b[0] && TextLess(a[1..], b[1..]))
  }

  lemma {:induction false} TextIrreflexive(a: string)
    ensures !TextLess(a, a)
  {
    if a != "" { TextIrreflexive(a[1..]); }
  }

  lemma {:induction false} TextTransitive(a: string, b: string, c: string)
    requires TextLess(a, b) && TextLess(b, c)
    ensures TextLess(a, c)
  {
    if a != "" && a[0] == b[0] == c[0] { TextTransitive(a[1..], b[1..], c[1..]); }
  }

  lemma {:induction false} TextTotal(a: string, b: string)
    ensures TextLess(a, b) || a == b || TextLess(b, a)
  {
    if a != "" && b != "" && a[0] == b[0] {
      TextTotal(a[1..], b[1..]);
      assert a == [a[0]] + a[1..] && b == [b[0]] + b[1..];
    }
  }

  /** Equal-length beginnings decide first. */
  lemma {:induction false} TextConcat(a: string, x: string, b: string, y: string)
    requires |a| == |b|
    ensures TextLess(a + x, b + y) <==> TextLess(a, b) || (a == b && TextLess(x, y))
  {
    if a == "" {
      assert a + x == x && b + y == y;
    } else {
      TextConcat(a[1..], x, b[1..], y);
      assert (a + x)[1..] == a[1..] + x && (b + y)[1..] == b[1..] + y;
      assert a == [a[0]] + a[1..] && b == [b[0]] + b[1..];
    }
  }

  function HexDigit(d: nat): char
    requires d < 16
  {
    "0123456789abcdef"[d]
  }

  lemma DigitOrder(a: nat, b: nat)
    requires a < 16 && b < 16
    ensures HexDigit(a) < HexDigit(b) <==> a < b
    ensures HexDigit(a) == HexDigit(b) <==> a == b
  {}

  /** The number in `width` hexadecimal digits, most significant first. */
  function Hex(n: nat, width: nat): (s: string)
    ensures |s| == width
  {
    if width == 0 then "" else Hex(n / 16, width - 1) + [HexDigit(n % 16)]
  }

  function Sixteenths(width: nat): nat {
    if width == 0 then 1 else 16 * Sixteenths(width - 1)
  }

  lemma {:induction false} HexOrder(a: nat, b: nat, width: nat)
    requires a < Sixteenths(width) && b < Sixteenths(width)
    ensures TextLess(Hex(a, width), Hex(b, width)) <==> a < b
    ensures Hex(a, width) == Hex(b, width) <==> a == b
  {
    if width > 0 {
      HexOrder(a / 16, b / 16, width - 1);
      DigitOrder(a % 16, b % 16);
      TextConcat(Hex(a / 16, width - 1), [HexDigit(a % 16)], Hex(b / 16, width - 1), [HexDigit(b % 16)]);
      LastDigits(Hex(a / 16, width - 1), HexDigit(a % 16), Hex(b / 16, width - 1), HexDigit(b % 16));
      assert a == 16 * (a / 16) + a % 16 && b == 16 * (b / 16) + b % 16;
    }
  }

  lemma LastDigits(s: string, c: char, t: string, d: char)
    requires |s| == |t|
    ensures s + [c] == t + [d] <==> s == t && c == d
    ensures TextLess([c], [d]) <==> c < d
  {
    assert (s + [c])[..|s|] == s && (t + [d])[..|t|] == t;
    assert (s + [c])[|s|] == c && (t + [d])[|t|] == d;
    assert !TextLess("", "");
  }

  /** Hyphens after 8, 12, 16 and 20 digits. */
  function Hyphenated(s: string): (text: string)
    requires |s| == 32
    ensures |text| == 36
  {
    s[..8] + "-" + (s[8..12] + "-" + (s[12..16] + "-" + (s[16..20] + "-" + s[20..])))
  }

  lemma HyphenStep(s: string, t: string, n: nat, x: string, y: string)
    requires n <= |s| == |t| && (TextLess(x, y) <==> TextLess(s[n..], t[n..]))
    ensures TextLess(s[..n] + "-" + x, t[..n] + "-" + y) <==> TextLess(s, t)
  {
    TextConcat(s[..n] + "-", x, t[..n] + "-", y);
    TextConcat(s[..n], "-", t[..n], "-");
    TextIrreflexive("-");
    TextConcat(s[..n], s[n..], t[..n], t[n..]);
    assert s[..n] + s[n..] == s && t[..n] + t[n..] == t;
    assert s[..n] + "-" == t[..n] + "-" <==> s[..n] == t[..n] by {
      assert (s[..n] + "-")[..n] == s[..n] && (t[..n] + "-")[..n] == t[..n];
    }
  }

  lemma HyphensKeepOrder(s: string, t: string)
    requires |s| == 32 && |t| == 32
    ensures TextLess(Hyphenated(s), Hyphenated(t)) <==> TextLess(s, t)
  {
    hide TextLess;
    var s1, t1, s2, t2, s3, t3 := s[8..], t[8..], s[12..], t[12..], s[16..], t[16..];
    assert s3[..4] == s[16..20] && t3[..4] == t[16..20] && s3[4..] == s[20..] && t3[4..] == t[20..];
    assert s2[..4] == s[12..16] && t2[..4] == t[12..16] && s2[4..] == s3 && t2[4..] == t3;
    assert s1[..4] == s[8..12] && t1[..4] == t[8..12] && s1[4..] == s2 && t1[4..] == t2;
    var x3, y3 := s[16..20] + "-" + s[20..], t[16..20] + "-" + t[20..];
    HyphenStep(s3, t3, 4, s[20..], t[20..]);
    var x2, y2 := s[12..16] + "-" + x3, t[12..16] + "-" + y3;
    HyphenStep(s2, t2, 4, x3, y3);
    var x1, y1 := s[8..12] + "-" + x2, t[8..12] + "-" + y2;
    HyphenStep(s1, t1, 4, x2, y2);
    HyphenStep(s, t, 8, x1, y1);
  }

  /** The canonical lower-case text of a UUID. */
  function UuidText(n: Uuid): string {
    Hyphenated(Hex(n, 32))
  }

  lemma UuidBound()
    ensures Sixteenths(32) == UUID_LIMIT
  {
    assert Sixteenths(8) == 0x1_0000_0000;
    assert Sixteenths(16) == 0x1_0000_0000_0000_0000;
    assert Sixteenths(24) == 0x1_0000_0000_0000_0000_0000_0000;
  }

  /** Canonical text compares like the sixteen bytes. */
  lemma UuidTextOrder(a: Uuid, b: Uuid)
    ensures TextLess(UuidText(a), UuidText(b)) <==> a < b
    ensures UuidText(a) == UuidText(b) <==> a == b
  {
    hide Hyphenated, TextLess, Hex;
    UuidBound();
    HexOrder(a, b, 32);
    HexOrder(b, a, 32);
    HyphensKeepOrder(Hex(a, 32), Hex(b, 32));
    HyphensKeepOrder(Hex(b, 32), Hex(a, 32));
    if UuidText(a) == UuidText(b) { TextIrreflexive(UuidText(a)); }
  }

  // Ids in either case.

  predicate LowerLetter(c: char) {
    'a' <= c <= 'f'
  }

  predicate UpperLetter(c: char) {
    'A' <= c <= 'F'
  }

  predicate HexText(s: string) {
    forall i :: 0 <= i < |s| ==> '0' <= s[i] <= '9' || LowerLetter(s[i]) || UpperLetter(s[i])
  }

  function DigitOf(c: char): nat {
    if '0' <= c <= '9' then c as int - '0' as int
    else if LowerLetter(c) then c as int - 'a' as int + 10
    else if UpperLetter(c) then c as int - 'A' as int + 10
    else 0
  }

  /** The number that a text of hexadecimal digits stands for. */
  function ValueOf(s: string): nat {
    if s == "" then 0 else 16 * ValueOf(s[..|s| - 1]) + DigitOf(s[|s| - 1])
  }

  lemma HexDigitReads(d: nat)
    requires d < 16
    ensures DigitOf(HexDigit(d)) == d && HexText([HexDigit(d)])
  {}

  lemma HexTextConcat(s: string, t: string)
    requires HexText(s) && HexText(t)
    ensures HexText(s + t)
  {}

  lemma NoText()
    ensures HexText("")
  {}

  /** Reading the digits of a number back gives the number. */
  lemma {:induction false} HexValue(n: nat, width: nat)
    requires n < Sixteenths(width)
    ensures ValueOf(Hex(n, width)) == n && HexText(Hex(n, width))
  {
    hide HexDigit, DigitOf, HexText;
    if width == 0 {
      NoText();
    } else {
      var front, last := Hex(n / 16, width - 1), HexDigit(n % 16);
      HexValue(n / 16, width - 1);
      HexDigitReads(n % 16);
      HexTextConcat(front, [last]);
      assert (front + [last])[..width - 1] == front && (front + [last])[width - 1] == last;
      assert n == 16 * (n / 16) + n % 16;
    }
  }

  predicate FirstDifference(s: string, t: string, k: nat) {
    k < |s| == |t| && s[..k] == t[..k] && s[k] != t[k]
  }

  lemma {:induction false} TextDecided(s: string, t: string, k: nat)
    requires FirstDifference(s, t, k)
    ensures TextLess(s, t) <==> s[k] < t[k]
  {
    if k > 0 {
      assert s[0] == s[..k][0] && t[0] == t[..k][0];
      assert s[1..][..k - 1] == s[..k][1..] && t[1..][..k - 1] == t[..k][1..];
      TextDecided(s[1..], t[1..], k - 1);
    }
  }

  /** The first digit that differs, whatever its case. */
  predicate FirstDigit(s: string, t: string, j: int) {
    0 <= j < |s| == |t| && DigitOf(s[j]) != DigitOf(t[j]) && forall i :: 0 <= i < j ==> DigitOf(s[i]) == DigitOf(t[i])
  }

  predicate SameDigits(s: string, t: string) {
    |s| == |t| && forall i :: 0 <= i < |s| ==> DigitOf(s[i]) == DigitOf(t[i])
  }

  lemma {:induction false} SameDigitsSameValue(s: string, t: string)
    requires SameDigits(s, t)
    ensures ValueOf(s) == ValueOf(t)
  {
    if s != "" { SameDigitsSameValue(s[..|s| - 1], t[..|t| - 1]); }
  }

  lemma DigitRange(c: char)
    ensures DigitOf(c) < 16
  {}

  lemma {:induction false} ValueDecided(s: string, t: string, j: nat)
    requires FirstDigit(s, t, j)
    ensures ValueOf(s) != ValueOf(t) && (ValueOf(s) < ValueOf(t) <==> DigitOf(s[j]) < DigitOf(t[j]))
  {
    hide DigitOf;
    var a, b := s[..|s| - 1], t[..|t| - 1];
    DigitRange(s[|s| - 1]);
    DigitRange(t[|t| - 1]);
    if j == |s| - 1 { SameDigitsSameValue(a, b); } else { ValueDecided(a, b, j); }
  }

  lemma {:induction false} SomeDigit(s: string, t: string) returns (j: nat)
    requires |s| == |t| && !SameDigits(s, t)
    ensures FirstDigit(s, t, j)
  {
    hide DigitOf;
    var a, b := s[..|s| - 1], t[..|t| - 1];
    if SameDigits(a, b) {
      j := |s| - 1;
      forall i | 0 <= i < j ensures DigitOf(s[i]) == DigitOf(t[i]) {
        assert DigitOf(a[i]) == DigitOf(b[i]);
      }
    } else {
      j := SomeDigit(a, b);
      forall i | 0 <= i < j ensures DigitOf(s[i]) == DigitOf(t[i]) {
        assert DigitOf(a[i]) == DigitOf(b[i]);
      }
    }
  }

  /** The hyphenated texts compare like the numbers they stand for. */
  predicate SameOrder(s: string, t: string)
    requires |s| == 32 && |t| == 32
  {
    (TextLess(Hyphenated(s), Hyphenated(t)) <==> ValueOf(s) < ValueOf(t))
    && (TextLess(Hyphenated(t), Hyphenated(s)) <==> ValueOf(t) < ValueOf(s))
  }

  ghost predicate FirstDigitAgrees(s: string, t: string, k: nat)
    requires FirstDifference(s, t, k)
  {
    exists j :: FirstDigit(s, t, j) && (s[k] < t[k] <==> DigitOf(s[j]) < DigitOf(t[j]))
  }

  /** Two different hyphenated ids, in either case, compare like their numbers exactly when the first
      character that differs points the same way as the first digit that differs. */
  lemma IdOrderIff(s: string, t: string, k: nat)
    requires |s| == 32 && |t| == 32 && FirstDifference(s, t, k)
    ensures SameOrder(s, t) <==> FirstDigitAgrees(s, t, k)
  {
    hide Hyphenated, TextLess, ValueOf, DigitOf;
    HyphensKeepOrder(s, t);
    HyphensKeepOrder(t, s);
    TextDecided(s, t, k);
    TextDecided(t, s, k);
    if SameDigits(s, t) {
      SameDigitsSameValue(s, t);
      assert forall j :: !FirstDigit(s, t, j);
    } else {
      var j := SomeDigit(s, t);
      ValueDecided(s, t, j);
      forall i | FirstDigit(s, t, i) ensures i == j {
        OneFirstDigit(s, t, i, j);
      }
    }
  }

  lemma OneFirstDigit(s: string, t: string, i: int, j: int)
    requires FirstDigit(s, t, i) && FirstDigit(s, t, j)
    ensures i == j
  {}

  /** Where the first characters that differ are different digits, only an upper-case letter
      against a smaller lower-case one goes wrong. */
  predicate Crossed(c: char, d: char) {
    UpperLetter(c) && LowerLetter(d) && DigitOf(c) > DigitOf(d)
  }

  lemma CrossedIff(s: string, t: string, k: nat)
    requires |s| == 32 && |t| == 32 && HexText(s) && HexText(t)
    requires FirstDifference(s, t, k) && DigitOf(s[k]) != DigitOf(t[k])
    ensures SameOrder(s, t) <==> !Crossed(s[k], t[k]) && !Crossed(t[k], s[k])
  {
    hide SameOrder;
    IdOrderIff(s, t, k);
    forall i | 0 <= i < k ensures s[i] == t[i] {
      assert s[i] == s[..k][i] && t[i] == t[..k][i];
    }
    assert FirstDigit(s, t, k);
    forall j | FirstDigit(s, t, j) ensures j == k {
      OneFirstDigit(s, t, j, k);
    }
  }

  predicate OneCase(s: string, t: string) {
    (forall c :: c in s + t ==> !UpperLetter(c)) || (forall c :: c in s + t ==> !LowerLetter(c))
  }

  lemma SomeDifference(s: string, t: string) returns (k: nat)
    requires |s| == |t| && s != t
    ensures FirstDifference(s, t, k)
  {
    k := 0;
    while k < |s| && s[k] == t[k]
      invariant k <= |s| && s[..k] == t[..k]
    {
      k := k + 1;
    }
    assert s[..|s|] == s && t[..|t|] == t;
  }

  /** Hyphenated ids written all in lower case, or all in upper case, compare like their numbers. */
  lemma OneCaseAgrees(s: string, t: string)
    requires |s| == 32 && |t| == 32 && HexText(s) && HexText(t) && OneCase(s, t)
    ensures SameOrder(s, t)
  {
    if s == t {
      TextIrreflexive(Hyphenated(s));
    } else {
      hide SameOrder;
      var k := SomeDifference(s, t);
      assert s[k] in s + t && t[k] in s + t;
      CrossedIff(s, t, k);
    }
  }

  // The four ways to write an id.

  /** 32 digits, hyphenated, with the prefix of a URN, or in braces. */
  datatype Form = Simple | Hyphens | Urn | Braced

  function Written(form: Form, s: string): string
    requires |s| == 32
  {
    match form
    case Simple => s
    case Hyphens => Hyphenated(s)
    case Urn => "urn:uuid:" + Hyphenated(s)
    case Braced => "{" + Hyphenated(s) + "}"
  }

  /** Forms of a higher class begin with a character that follows every digit. */
  function Class(form: Form): nat {
    match form
    case Simple => 0
    case Hyphens => 0
    case Urn => 1
    case Braced => 2
  }

  function LeadOf(form: Form, s: string): char
    requires |s| == 32
  {
    if form.Urn? then 'u' else if form.Braced? then '{' else s[0]
  }

  lemma LeadDecides(a: string, b: string)
    requires a != "" && b != "" && a[0] != b[0]
    ensures TextLess(a, b) <==> a[0] < b[0]
  {}

  lemma WrittenLead(form: Form, s: string)
    requires |s| == 32
    ensures Written(form, s) != "" && Written(form, s)[0] == LeadOf(form, s)
  {
    assert Hyphenated(s)[0] == s[0] by { assert Hyphenated(s)[..8] == s[..8]; assert s[..8][0] == s[0]; }
  }

  /** In forms of different classes only the forms count. */
  lemma ClassDecides(f: Form, s: string, g: Form, t: string)
    requires |s| == 32 && |t| == 32 && HexText(s) && HexText(t) && Class(f) != Class(g)
    ensures TextLess(Written(f, s), Written(g, t)) <==> Class(f) < Class(g)
  {
    hide Written, TextLess;
    WrittenLead(f, s);
    WrittenLead(g, t);
    LeadDecides(Written(f, s), Written(g, t));
  }

  /** In one form they compare as the digits do. */
  lemma SameFormOrder(f: Form, s: string, t: string)
    requires |s| == 32 && |t| == 32
    ensures TextLess(Written(f, s), Written(f, t)) <==> TextLess(s, t)
  {
    hide Hyphenated, TextLess;
    HyphensKeepOrder(s, t);
    HyphensKeepOrder(t, s);
    match f
    case Simple =>
    case Hyphens =>
    case Urn =>
      TextConcat("urn:uuid:", Hyphenated(s), "urn:uuid:", Hyphenated(t));
      TextIrreflexive("urn:uuid:");
    case Braced =>
      TextConcat("{" + Hyphenated(s), "}", "{" + Hyphenated(t), "}");
      TextConcat("{", Hyphenated(s), "{", Hyphenated(t));
      TextIrreflexive("{");
      TextIrreflexive("}");
  }

  /** With and without hyphens only the first eight digits count, and if they are equal the
      hyphenated text comes first. */
  lemma HyphenDecides(s: string, t: string)
    requires |s| == 32 && |t| == 32 && HexText(t)
    ensures TextLess(Hyphenated(s), t) <==> TextLess(s[..8], t[..8]) || s[..8] == t[..8]
    ensures TextLess(t, Hyphenated(s)) <==> TextLess(t[..8], s[..8])
  {
    hide TextLess;
    var rest := "-" + (s[8..12] + "-" + (s[12..16] + "-" + (s[16..20] + "-" + s[20..])));
    assert Hyphenated(s) == s[..8] + rest && t == t[..8] + t[8..];
    TextConcat(s[..8], rest, t[..8], t[8..]);
    TextConcat(t[..8], t[8..], s[..8], rest);
    LeadDecides(rest, t[8..]);
    LeadDecides(t[8..], rest);
  }

  /** The texts compare like the numbers they stand for, whatever their forms. */
  predicate SameOrderIn(f: Form, s: string, g: Form, t: string)
    requires |s| == 32 && |t| == 32
  {
    (TextLess(Written(f, s), Written(g, t)) <==> ValueOf(s) < ValueOf(t))
    && (TextLess(Written(g, t), Written(f, s)) <==> ValueOf(t) < ValueOf(s))
  }

  /** When that is so: in one form, when the digits do; in forms of different classes, when the
      id in the lower class is the smaller one; and with hyphens against without, when the first
      eight digits decide it the right way, or are equal and the hyphenated id is the smaller one. */
  predicate FormsAgree(f: Form, s: string, g: Form, t: string)
    requires |s| == 32 && |t| == 32
  {
    if f == g then SameOrder(s, t)
    else if Class(f) != Class(g) then
      if Class(f) < Class(g) then ValueOf(s) < ValueOf(t) else ValueOf(t) < ValueOf(s)
    else if s[..8] == t[..8] then
      if f.Hyphens? then ValueOf(s) < ValueOf(t) else ValueOf(t) < ValueOf(s)
    else if TextLess(s[..8], t[..8]) then ValueOf(s) < ValueOf(t) else ValueOf(t) < ValueOf(s)
  }

  /** Two ids in any of the forms compare like their numbers exactly then. */
  lemma FormOrderIff(f: Form, s: string, g: Form, t: string)
    requires |s| == 32 && |t| == 32 && HexText(s) && HexText(t)
    ensures SameOrderIn(f, s, g, t) <==> FormsAgree(f, s, g, t)
  {
    hide TextLess, ValueOf, HexText, Hyphenated;
    if f == g {
      SameFormOrder(f, s, t);
      SameFormOrder(f, t, s);
      HyphensKeepOrder(s, t);
      HyphensKeepOrder(t, s);
    } else if Class(f) != Class(g) {
      ClassDecides(f, s, g, t);
      ClassDecides(g, t, f, s);
    } else {
      TextTotal(s[..8], t[..8]);
      TextIrreflexive(s[..8]);
      if TextLess(s[..8], t[..8]) && TextLess(t[..8], s[..8]) { TextTransitive(s[..8], t[..8], s[..8]); }
      if f.Hyphens? { HyphenDecides(s, t); } else { HyphenDecides(t, s); }
    }
  }

  // Keys.

  datatype Key = Key(clock: int, replica: string, id: string)

  predicate Before(a: Key, b: Key) {
    a.clock < b.clock
    || (a.clock == b.clock && TextLess(a.replica, b.replica))
    || (a.clock == b.clock && a.replica == b.replica && TextLess(a.id, b.id))
  }

  lemma BeforeIrreflexive(a: Key)
    ensures !Before(a, a)
  {
    TextIrreflexive(a.replica);
    TextIrreflexive(a.id);
  }

  lemma BeforeTransitive(a: Key, b: Key, c: Key)
    requires Before(a, b) && Before(b, c)
    ensures Before(a, c)
  {
    hide TextLess;
    if TextLess(a.replica, b.replica) && TextLess(b.replica, c.replica) {
      TextTransitive(a.replica, b.replica, c.replica);
    }
    if TextLess(a.id, b.id) && TextLess(b.id, c.id) { TextTransitive(a.id, b.id, c.id); }
  }

  lemma BeforeTotal(a: Key, b: Key)
    ensures Before(a, b) || a == b || Before(b, a)
  {
    hide TextLess;
    TextTotal(a.replica, b.replica);
    TextTotal(a.id, b.id);
  }

  function StampKey(s: Stamp): Key {
    Key(s.clock, UuidText(s.replica), UuidText(s.event))
  }

  datatype Decision = Left | Right | Equal

  /** The merge crate compares the texts. */
  function ChooseWinner(left: Key, right: Key): Decision {
    if Before(right, left) then Left else if Before(left, right) then Right else Equal
  }

  /** On canonical text that is the order by which the store lets a write win a field. */
  lemma ChooseWinnerIsNewer(a: Stamp, b: Stamp)
    ensures Before(StampKey(b), StampKey(a)) <==> Newer(a, b)
    ensures ChooseWinner(StampKey(a), StampKey(b)) ==
      if Newer(a, b) then Left else if Newer(b, a) then Right else Equal
    ensures ChooseWinner(StampKey(a), StampKey(b)).Equal? <==> a == b
  {
    hide UuidText, TextLess;
    UuidTextOrder(a.replica, b.replica);
    UuidTextOrder(b.replica, a.replica);
    UuidTextOrder(a.event, b.event);
    UuidTextOrder(b.event, a.event);
  }

  // Sorting and deduplicating.

  /** What a relay hands over: an event, in a wrapper that may differ between copies. */
  datatype Record = Record(key: Key, payload: int, wrapper: int)

  datatype Event = Event(key: Key, payload: int)

  function EventOf(r: Record): Event {
    Event(r.key, r.payload)
  }

  /** Goes behind everything that is not after it, so equal keys keep their order. */
  function Insert(r: Record, sorted: seq<Record>): seq<Record> {
    if sorted == [] then [r]
    else if Before(r.key, sorted[|sorted| - 1].key) then Insert(r, sorted[..|sorted| - 1]) + [sorted[|sorted| - 1]]
    else sorted + [r]
  }

  function Sort(records: seq<Record>): seq<Record> {
    if records == [] then [] else Insert(records[|records| - 1], Sort(records[..|records| - 1]))
  }

  /** Drops each record whose id is that of the one kept before it. */
  function Dedup(records: seq<Record>): seq<Record> {
    if records == [] then []
    else
      var front, last := Dedup(records[..|records| - 1]), records[|records| - 1];
      if front != [] && front[|front| - 1].key.id == last.key.id then front else front + [last]
  }

  function Recovered(records: seq<Record>): seq<Record> {
    Dedup(Sort(records))
  }

  ghost predicate NotAfter(a: Key, b: Key) {
    Before(a, b) || a == b
  }

  ghost predicate Sorted(s: seq<Record>) {
    forall i, j :: 0 <= i < j < |s| ==> NotAfter(s[i].key, s[j].key)
  }

  ghost predicate Increasing(s: seq<Record>) {
    forall i, j :: 0 <= i < j < |s| ==> Before(s[i].key, s[j].key)
  }

  /** Equal event ids mean equal events; only the wrappers may differ. */
  ghost predicate OneEventPerId(records: seq<Record>) {
    forall a, b :: a in records && b in records && a.key.id == b.key.id ==> EventOf(a) == EventOf(b)
  }

  lemma AllNotAfter(s: seq<Record>, k: Key)
    requires Sorted(s) && s != [] && NotAfter(s[|s| - 1].key, k)
    ensures forall i :: 0 <= i < |s| ==> NotAfter(s[i].key, k)
  {
    hide Before;
    forall i | 0 <= i < |s| ensures NotAfter(s[i].key, k) {
      if i < |s| - 1 {
        assert NotAfter(s[i].key, s[|s| - 1].key);
        if s[i].key != s[|s| - 1].key && s[|s| - 1].key != k { BeforeTransitive(s[i].key, s[|s| - 1].key, k); }
      }
    }
  }

  lemma {:induction false} InsertSorts(r: Record, s: seq<Record>)
    requires Sorted(s)
    ensures Sorted(Insert(r, s))
    ensures forall x :: x in Insert(r, s) <==> x == r || x in s
  {
    hide Before, NotAfter;
    if s != [] {
      var front, last := s[..|s| - 1], s[|s| - 1];
      assert s == front + [last];
      if Before(r.key, last.key) {
        InsertSorts(r, front);
        InsertLast(r, s, Insert(r, front));
      } else {
        BeforeTotal(r.key, last.key);
        SortedLast(s, r);
      }
    }
  }

  lemma SortedLast(s: seq<Record>, r: Record)
    requires Sorted(s) && s != [] && (Before(s[|s| - 1].key, r.key) || s[|s| - 1].key == r.key)
    ensures Sorted(s + [r])
  {
    hide Before;
    AllNotAfter(s, r.key);
  }

  lemma InsertLast(r: Record, s: seq<Record>, some: seq<Record>)
    requires Sorted(s) && s != [] && Before(r.key, s[|s| - 1].key)
    requires Sorted(some) && forall x :: x in some ==> x == r || x in s[..|s| - 1]
    ensures Sorted(some + [s[|s| - 1]])
  {
    hide Before;
    var last := s[|s| - 1];
    forall i | 0 <= i < |some| ensures NotAfter(some[i].key, last.key) {
      assert some[i] in some;
      if some[i] != r {
        var j :| 0 <= j < |s| - 1 && s[..|s| - 1][j] == some[i];
        assert NotAfter(s[j].key, last.key);
      }
    }
  }

  lemma {:induction false} SortSorts(records: seq<Record>)
    ensures Sorted(Sort(records))
    ensures forall x :: x in Sort(records) <==> x in records
  {
    hide Before, Insert;
    if records != [] {
      var front, last := records[..|records| - 1], records[|records| - 1];
      SortSorts(front);
      InsertSorts(last, Sort(front));
      assert records == front + [last];
    }
  }

  /** The events in a list of records, whatever their wrappers. */
  ghost function EventSet(s: seq<Record>): (events: set<Event>)
    ensures forall r :: r in s ==> EventOf(r) in events
    ensures forall e :: e in events ==> exists r :: r in s && EventOf(r) == e
  {
    set r | r in s :: EventOf(r)
  }

  lemma EventSetAppend(s: seq<Record>, r: Record)
    ensures EventSet(s + [r]) == EventSet(s) + {EventOf(r)}
  {
    forall e | e in EventSet(s + [r]) ensures e in EventSet(s) + {EventOf(r)} {
      var x :| x in s + [r] && EventOf(x) == e;
      assert x in s || x == r;
    }
    assert r in s + [r];
    forall e | e in EventSet(s) ensures e in EventSet(s + [r]) {
      var x :| x in s && EventOf(x) == e;
      assert x in s + [r];
    }
  }

  lemma SameRecordsSameEvents(a: seq<Record>, b: seq<Record>)
    requires forall x :: x in a <==> x in b
    ensures EventSet(a) == EventSet(b)
  {}

  lemma OneEventFront(s: seq<Record>)
    requires OneEventPerId(s) && s != []
    ensures OneEventPerId(s[..|s| - 1])
    ensures forall e :: e in EventSet(s[..|s| - 1]) && e.key.id == s[|s| - 1].key.id ==> e == EventOf(s[|s| - 1])
  {
    assert s == s[..|s| - 1] + [s[|s| - 1]];
    assert s[|s| - 1] in s;
    forall r | r in s[..|s| - 1] ensures r in s {}
  }

  lemma {:induction false} DedupIncreases(s: seq<Record>)
    requires Sorted(s) && OneEventPerId(s)
    ensures Increasing(Dedup(s)) && EventSet(Dedup(s)) == EventSet(s)
    ensures s != [] ==> Dedup(s) != [] && Dedup(s)[|Dedup(s)| - 1].key == s[|s| - 1].key
  {
    hide Before, OneEventPerId, Sorted, Increasing, EventOf, EventSet;
    if s == [] {
      NothingIncreases();
    } else {
      var front, last := s[..|s| - 1], s[|s| - 1];
      OneEventFront(s);
      SortedFront(s);
      DedupIncreases(front);
      assert s == front + [last];
      EventSetAppend(front, last);
      var kept := Dedup(front);
      if kept != [] && kept[|kept| - 1].key.id == last.key.id {
        KeptHasEvent(kept, last);
      } else {
        AppendIncreases(s, kept);
        EventSetAppend(kept, last);
      }
    }
  }

  lemma NothingIncreases()
    ensures Increasing([])
  {}

  lemma SortedFront(s: seq<Record>)
    requires Sorted(s) && s != []
    ensures Sorted(s[..|s| - 1])
  {
    hide Before;
  }

  /** The record dropped carries the event of the one kept. */
  lemma KeptHasEvent(kept: seq<Record>, last: Record)
    requires kept != [] && kept[|kept| - 1].key.id == last.key.id
    requires forall e :: e in EventSet(kept) && e.key.id == last.key.id ==> e == EventOf(last)
    ensures EventOf(last) in EventSet(kept) && kept[|kept| - 1].key == last.key
    ensures EventSet(kept) + {EventOf(last)} == EventSet(kept)
  {
    assert kept[|kept| - 1] in kept;
  }

  lemma AppendIncreases(s: seq<Record>, kept: seq<Record>)
    requires s != [] && Sorted(s) && Increasing(kept)
    requires kept == []
      || (|s| > 1 && kept[|kept| - 1].key == s[|s| - 2].key && kept[|kept| - 1].key.id != s[|s| - 1].key.id)
    ensures Increasing(kept + [s[|s| - 1]])
  {
    hide Before;
    var last := s[|s| - 1];
    forall i | 0 <= i < |kept| ensures Before(kept[i].key, last.key) {
      assert NotAfter(s[|s| - 2].key, last.key);
      assert Before(kept[|kept| - 1].key, last.key);
      if i < |kept| - 1 { BeforeTransitive(kept[i].key, kept[|kept| - 1].key, last.key); }
    }
  }

  // The recovered list is canonical.

  function Events(s: seq<Record>): (events: seq<Event>)
    ensures |events| == |s| && forall i :: 0 <= i < |s| ==> events[i] == EventOf(s[i])
  {
    if s == [] then [] else Events(s[..|s| - 1]) + [EventOf(s[|s| - 1])]
  }

  ghost predicate EventsIncreasing(s: seq<Event>) {
    forall i, j :: 0 <= i < j < |s| ==> Before(s[i].key, s[j].key)
  }

  lemma LastIsGreatest(s: seq<Event>, e: Event)
    requires EventsIncreasing(s) && e in s
    ensures e == s[|s| - 1] || Before(e.key, s[|s| - 1].key)
  {
    hide Before;
  }

  lemma LastNotInFront(s: seq<Event>)
    requires EventsIncreasing(s) && s != []
    ensures s[|s| - 1] !in s[..|s| - 1] && EventsIncreasing(s[..|s| - 1])
    ensures forall e :: e in s <==> e in s[..|s| - 1] || e == s[|s| - 1]
  {
    hide Before;
    BeforeIrreflexive(s[|s| - 1].key);
    forall i | 0 <= i < |s| - 1 ensures s[i] != s[|s| - 1] {
      assert Before(s[i].key, s[|s| - 1].key);
    }
    assert s == s[..|s| - 1] + [s[|s| - 1]];
  }

  lemma BothEmpty(a: seq<Event>, b: seq<Event>)
    requires forall e :: e in a <==> e in b
    ensures a == [] <==> b == []
  {
    if a != [] { assert a[0] in a; }
    if b != [] { assert b[0] in b; }
  }

  /** Strictly increasing lists of the same events are the same lists. */
  lemma {:induction false} IncreasingUnique(a: seq<Event>, b: seq<Event>)
    requires EventsIncreasing(a) && EventsIncreasing(b) && forall e :: e in a <==> e in b
    ensures a == b
    decreases |a|
  {
    hide Before, EventsIncreasing;
    BothEmpty(a, b);
    if a != [] {
      var la, front := a[|a| - 1], a[..|a| - 1];
      assert la in a;
      var lb, rest := b[|b| - 1], b[..|b| - 1];
      LastIsGreatest(b, la);
      LastIsGreatest(a, lb);
      BeforeIrreflexive(la.key);
      if la != lb { BeforeTransitive(la.key, lb.key, la.key); }
      LastNotInFront(a);
      LastNotInFront(b);
      forall e | e in front ensures e in rest { assert e in a && e in b; }
      forall e | e in rest ensures e in front { assert e in b && e in a; }
      IncreasingUnique(front, rest);
      assert a == front + [la] && b == rest + [lb];
    }
  }

  lemma EventsOfIncreasing(s: seq<Record>)
    requires Increasing(s)
    ensures EventsIncreasing(Events(s))
    ensures forall e :: e in Events(s) <==> e in EventSet(s)
  {
    hide Before;
    forall e | e in EventSet(s) ensures e in Events(s) {
      var r :| r in s && EventOf(r) == e;
      var i :| 0 <= i < |s| && s[i] == r;
      assert Events(s)[i] == e;
    }
  }

  lemma RecoveryKeeps(a: seq<Record>)
    requires OneEventPerId(a)
    ensures Increasing(Recovered(a)) && EventSet(Recovered(a)) == EventSet(a)
  {
    hide Sort, Dedup, Before, Sorted, Increasing;
    SortSorts(a);
    SameRecordsSameEvents(a, Sort(a));
    DedupIncreases(Sort(a));
  }

  /** Whatever relays deliver, in any order and multiplicity, the same events come out as
      the same strictly increasing list, with nothing lost and nothing twice. */
  lemma RecoveryIsCanonical(a: seq<Record>, b: seq<Record>)
    requires OneEventPerId(a) && OneEventPerId(b) && EventSet(a) == EventSet(b)
    ensures Events(Recovered(a)) == Events(Recovered(b)) && EventsIncreasing(Events(Recovered(a)))
    ensures forall e :: e in Events(Recovered(a)) <==> e in EventSet(a)
  {
    hide *;
    RecoveryKeeps(a);
    RecoveryKeeps(b);
    EventsOfIncreasing(Recovered(a));
    EventsOfIncreasing(Recovered(b));
    IncreasingUnique(Events(Recovered(a)), Events(Recovered(b)));
  }

  /** For canonical ids, each recovered event is newer than the one before it, so applying
      them in turn meets every field's stamps in winning order. */
  lemma RecoveredByStamp(records: seq<Record>, stamps: seq<Stamp>)
    requires OneEventPerId(records) && |stamps| == |Recovered(records)|
    requires forall i :: 0 <= i < |stamps| ==> Recovered(records)[i].key == StampKey(stamps[i])
    ensures forall i, j :: 0 <= i < j < |stamps| ==> Newer(stamps[j], stamps[i])
  {
    hide Recovered, Before, StampKey, Newer;
    RecoveryKeeps(records);
    forall i, j | 0 <= i < j < |stamps| ensures Newer(stamps[j], stamps[i]) {
      assert Before(Recovered(records)[i].key, Recovered(records)[j].key);
      ChooseWinnerIsNewer(stamps[j], stamps[i]);
    }
  }

  /** Fetching: what opens is pushed, the rest is skipped; then the list is sorted and deduplicated. */
  method Recover(fetched: seq<Option<Record>>) returns (recovered: seq<Record>)
    ensures recovered == Recovered(Opened(fetched))
  {
    recovered := [];
    for i := 0 to |fetched|
      invariant recovered == Opened(fetched[..i])
    {
      assert fetched[..i + 1][..i] == fetched[..i];
      if fetched[i].Some? { recovered := recovered + [fetched[i].value]; }
    }
    assert fetched[..|fetched|] == fetched;
    recovered := Dedup(Sort(recovered));
  }

  function Opened(fetched: seq<Option<Record>>): seq<Record> {
    if fetched == [] then []
    else Opened(fetched[..|fetched| - 1]) + if fetched[|fetched| - 1].Some? then [fetched[|fetched| - 1].value] else []
  }
}
