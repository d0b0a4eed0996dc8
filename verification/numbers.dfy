/**
 * JavaScript numbers as the modelled code produces them: `parseInt` and
 * `parseFloat` results that may be NaN, and the non-finite values a division
 * by zero yields in the pagination arithmetic.
 */
module Numbers {
  import opened Strings

  /** A number read from a request: NaN or a finite value. */
  datatype Num = NaN | N(v: real)

  /** `a + b`, NaN when either side is. */
  function Add(a: Num, b: Num): Num {
    if a.N? && b.N? then N(a.v + b.v) else NaN
  }

  /** `a > x` (false for NaN). */
  predicate Above(a: Num, x: real) {
    a.N? && a.v > x
  }

  /** `a < x` (false for NaN). */
  predicate Below(a: Num, x: real) {
    a.N? && a.v < x
  }

  /** `x >= b` (false for NaN). */
  predicate AtLeast(x: real, b: Num) {
    b.N? && x >= b.v
  }

  /** `x <= b` (false for NaN). */
  predicate AtMost(x: real, b: Num) {
    b.N? && x <= b.v
  }

  /** The longest prefix of `s` made of decimal digits. */
  function LeadingDigits(s: string): (r: string)
    ensures |r| <= |s| && r == s[..|r|]
    ensures forall i :: 0 <= i < |r| ==> IsDigit(r[i])
    ensures |r| < |s| ==> !IsDigit(s[|r|])
  {
    if |s| > 0 && IsDigit(s[0]) then [s[0]] + LeadingDigits(s[1..]) else ""
  }

  lemma {:induction false} AllDigitsLead(s: string)
    requires forall i :: 0 <= i < |s| ==> IsDigit(s[i])
    ensures LeadingDigits(s) == s
  {
    if |s| > 0 {
      AllDigitsLead(s[1..]);
      assert [s[0]] + s[1..] == s;
    }
  }

  /** After the leading white space, whether a sign character leads `s`,
      and the text after it. */
  function SignOf(s: string): (bool, string) {
    var t := TrimStart(s);
    if |t| > 0 && (t[0] == '-' || t[0] == '+') then (t[0] == '-', t[1..]) else (false, t)
  }

  function Signed(negative: bool, x: real): real {
    if negative then -x else x
  }

  function Pow10(k: nat): (r: nat)
    ensures r >= 1
  {
    if k == 0 then 1 else 10 * Pow10(k - 1)
  }

  /** `parseInt(s)`: leading white space, an optional sign, then the
      longest run of decimal digits; NaN when there is none. Text after the
      digits is ignored. */
  function ParseInt(s: string): (r: Num)
    ensures r.N? <==> |LeadingDigits(SignOf(s).1)| > 0
    ensures r.N? ==> r.v == r.v.Floor as real
  {
    var (negative, body) := SignOf(s);
    var ds := LeadingDigits(body);
    if |ds| == 0 then NaN
    else
      var k: int := DigitsValue(ds);
      N((if negative then -k else k) as real)
  }

  /** `parseFloat(s)`: leading white space, an optional sign, integer
      digits, and an optional fraction after `.`; NaN when neither part has
      a digit. */
  function ParseFloat(s: string): (r: Num)
    ensures ParseInt(s).N? ==> r.N?
  {
    var (negative, body) := SignOf(s);
    var ds := LeadingDigits(body);
    var rest := body[|ds|..];
    var fs := if |rest| > 0 && rest[0] == '.' then LeadingDigits(rest[1..]) else "";
    if |ds| == 0 && |fs| == 0 then NaN
    else N(Signed(negative, DigitsValue(ds) as real + DigitsValue(fs) as real / Pow10(|fs|) as real))
  }

  /** Leading white space, ASCII or not, is skipped before the number:
      ` 5` and `<no-break space>-5` read as 5 and -5. */
  lemma LeadingSpaceSkipped()
    ensures ParseFloat(" 5") == N(5.0) && ParseInt("\U{00A0}-5") == N(-5.0)
  {
    assert TrimStart(" 5") == "5" by { assert " 5"[1..] == "5"; }
    assert LeadingDigits("5") == "5";
    assert "5"[1..] == "";
    assert TrimStart("\U{00A0}-5") == "-5" by { assert "\U{00A0}-5"[1..] == "-5"; }
    assert "-5"[1..] == "5";
  }

  /** `parseInt` reads back what `toString` writes for every integer. */
  lemma ParseIntOfString(n: int)
    ensures ParseInt(IntToString(n)) == N(n as real)
  {
    var m: nat := if n < 0 then -n else n;
    var digits := NatToString(m);
    AllDigitsLead(digits);
    DigitsOfNat(m);
    if n < 0 {
      assert ("-" + digits)[1..] == digits;
    } else {
      assert digits[0] != '-' && digits[0] != '+';
    }
  }

  /** `parseFloat` reads back what `toString` writes for every integer. */
  lemma ParseFloatOfString(n: int)
    ensures ParseFloat(IntToString(n)) == N(n as real)
  {
    ParseIntOfString(n);
    var m: nat := if n < 0 then -n else n;
    var digits := NatToString(m);
    AllDigitsLead(digits);
    if n < 0 {
      assert ("-" + digits)[1..] == digits;
    } else {
      assert digits[0] != '-' && digits[0] != '+';
    }
    assert SignOf(IntToString(n)).1 == digits;
    WholeNumberText(IntToString(n));
  }

  /** On a sign and digits only, `parseFloat` and `parseInt` agree. */
  lemma WholeNumberText(s: string)
    requires |LeadingDigits(SignOf(s).1)| == |SignOf(s).1| > 0
    ensures ParseFloat(s) == ParseInt(s)
  {
    var body := SignOf(s).1;
    var ds := LeadingDigits(body);
    assert body[|ds|..] == "";
    var k: int := DigitsValue(ds);
    assert DigitsValue("") as real / Pow10(0) as real == 0.0;
    assert Signed(SignOf(s).0, k as real + 0.0) == (if SignOf(s).0 then -k else k) as real;
  }

  /** A JavaScript number that may also be infinite, as `Math.floor` and
      `Math.ceil` of a quotient can be. */
  datatype Ext = Fin(i: int) | PosInf | NegInf | ExtNaN

  /** The non-finite result of `a / 0`. */
  function DivByZero(a: real): Ext {
    if a > 0.0 then PosInf else if a < 0.0 then NegInf else ExtNaN
  }

  /** `Math.floor(a / b)`. */
  function FloorDiv(a: Num, b: Num): (r: Ext)
    ensures r.Fin? ==> a.N? && b.N? && b.v != 0.0 && r.i as real <= a.v / b.v < r.i as real + 1.0
  {
    if a.NaN? || b.NaN? then ExtNaN
    else if b.v == 0.0 then DivByZero(a.v)
    else Fin((a.v / b.v).Floor)
  }

  /** `Math.ceil(a / b)`. */
  function CeilDiv(a: Num, b: Num): (r: Ext)
    ensures r.Fin? ==> a.N? && b.N? && b.v != 0.0 && r.i as real - 1.0 < a.v / b.v <= r.i as real
  {
    if a.NaN? || b.NaN? then ExtNaN
    else if b.v == 0.0 then DivByZero(a.v)
    else
      var q := -a.v / b.v;
      assert q == -(a.v / b.v);
      Fin(-(q.Floor))
  }

  /** `e + 1`. */
  function PlusOne(e: Ext): Ext {
    if e.Fin? then Fin(e.i + 1) else e
  }

  /** `a < b`; every comparison with NaN is false. */
  predicate Less(a: Ext, b: Ext) {
    match (a, b)
    case (ExtNaN, _) => false
    case (_, ExtNaN) => false
    case (Fin(x), Fin(y)) => x < y
    case (NegInf, NegInf) => false
    case (NegInf, _) => true
    case (PosInf, _) => false
    case (Fin(_), PosInf) => true
    case (Fin(_), NegInf) => false
  }
}
