/** Tools.attr (flip.js:1240-1282): the coercion applied to every `data-*`
    attribute of a page element before it is stored on the page object. */
module Attributes {

  /** How a property is coerced: the table at flip.js:1241-1255. */
  datatype Rule = BoolRule | TimeRule | FnRule | Untyped

  function RuleOf(key: string): Rule {
    if key in {"index", "start", "cache", "load", "load_prev", "load_next", "refresh_hidden"} then BoolRule
    else if key in {"slide_duration", "refresh"} then TimeRule
    else if key in {"onload", "onenter", "onleave", "onbeforeenter", "onbeforeleave", "onrefresh"} then FnRule
    else Untyped
  }

  /** A stored property value. `Call(x)` is the closure that forwards to the
      global function named `x`; `NaN` is what `parseInt` gives without digits. */
  datatype Value = Flag(b: bool) | Number(n: int) | NaN | Call(name: string) | Text(s: string)

  /** The `switch` of flip.js:1258-1278. */
  function Coerce(key: string, value: string): Value {
    match RuleOf(key)
    case BoolRule => Flag(value == "true" || value == "1")
    case TimeRule =>
      if value == "slow" then Number(600)
      else if value == "normal" then Number(400)
      else if value == "fast" then Number(200)
      else ParseInt(value)
    case FnRule => Call(value)
    case Untyped => if value == "true" || value == "false" then Flag(value == "true") else Text(value)
  }

  /** `obj[prop] = value` after coercion (flip.js:1280). */
  function Map(props: map<string, Value>, key: string, value: string): (after: map<string, Value>)
    ensures key in after && after[key] == Coerce(key, value)
    ensures forall k :: k != key ==> (k in after <==> k in props) && (k in props ==> after[k] == props[k])
  {
    props[key := Coerce(key, value)]
  }

  /** Boolean properties are true exactly for "true" and "1"; any other text is false. */
  lemma BoolKeys(key: string, value: string)
    requires RuleOf(key) == BoolRule
    ensures Coerce(key, value).Flag?
    ensures Coerce(key, value).b <==> value == "true" || value == "1"
  {
  }

  /** Duration properties: the three jQuery speed words, otherwise `parseInt`. */
  lemma TimeKeywords(key: string)
    requires RuleOf(key) == TimeRule
    ensures Coerce(key, "slow") == Number(600)
    ensures Coerce(key, "normal") == Number(400)
    ensures Coerce(key, "fast") == Number(200)
    ensures Coerce(key, "") == NaN
  {
  }

  /** A duration written as an integer, possibly followed by a unit such as
      "ms", is stored as that integer. */
  lemma TimeNumbers(key: string, n: int, rest: string)
    requires RuleOf(key) == TimeRule
    requires rest == [] || rest[0] !in "0123456789xX"
    ensures Coerce(key, Render(n) + rest) == Number(n)
  {
    ParseRendered(n, rest);
    assert Render(n) + rest != "slow" && Render(n) + rest != "normal" && Render(n) + rest != "fast" by {
      RenderStart(n, rest);
    }
  }

  /** Properties without a rule keep their text unless it is "true" or "false". */
  lemma UntypedKeys(key: string, value: string)
    requires RuleOf(key) == Untyped
    ensures Coerce(key, value) == Text(value) <==> value != "true" && value != "false"
    ensures value == "true" || value == "false" ==> Coerce(key, value) == Flag(value == "true")
  {
  }

  // ----- parseInt(string) with no radix, over the integers -----

  /** The white space that `parseInt` skips (ECMAScript StrWhiteSpaceChar). */
  predicate Blank(c: char) {
    c in {' ', '\t', '\n', '\r', '\U{0B}', '\U{0C}', '\U{A0}', '\U{FEFF}', '\U{1680}',
          '\U{2000}', '\U{2001}', '\U{2002}', '\U{2003}', '\U{2004}', '\U{2005}', '\U{2006}',
          '\U{2007}', '\U{2008}', '\U{2009}', '\U{200A}', '\U{2028}', '\U{2029}', '\U{202F}',
          '\U{205F}', '\U{3000}'}
  }

  function TrimStart(s: string): string {
    if s != [] && Blank(s[0]) then TrimStart(s[1..]) else s
  }

  /** The value of `c` as a digit of `radix` (10 or 16), or -1. */
  function DigitValue(c: char, radix: int): int {
    if '0' <= c <= '9' then (if (c as int) - ('0' as int) < radix then (c as int) - ('0' as int) else -1)
    else if radix == 16 && 'a' <= c <= 'f' then (c as int) - ('a' as int) + 10
    else if radix == 16 && 'A' <= c <= 'F' then (c as int) - ('A' as int) + 10
    else -1
  }

  /** The longest prefix made of digits of `radix`. */
  function DigitRun(s: string, radix: int): (ds: string)
    ensures ds <= s
  {
    if s != [] && DigitValue(s[0], radix) >= 0 then [s[0]] + DigitRun(s[1..], radix) else []
  }

  function Magnitude(ds: string, radix: int): int {
    if ds == [] then 0
    else Magnitude(ds[..|ds| - 1], radix) * radix + DigitValue(ds[|ds| - 1], radix)
  }

  /** `parseInt(s)`: skip white space, read one sign, then the unsigned part. */
  function ParseInt(s: string): Value {
    var t := TrimStart(s);
    if t != [] && t[0] == '-' then
      (match Unsigned(t[1..]) case Number(m) => Number(-m) case v => v)
    else if t != [] && t[0] == '+' then Unsigned(t[1..])
    else Unsigned(t)
  }

  /** Base 16 after "0x" or "0X", else base 10; the longest run of digits,
      and NaN when there is none. */
  function Unsigned(u: string): Value {
    var hex := |u| >= 2 && u[0] == '0' && (u[1] == 'x' || u[1] == 'X');
    var radix := if hex then 16 else 10;
    var ds := DigitRun(if hex then u[2..] else u, radix);
    if ds == [] then NaN else Number(Magnitude(ds, radix))
  }

  /** Decimal text of a natural number, without leading zeros. */
  function Decimal(n: nat): (s: string)
    ensures s != []
    decreases n
  {
    if n < 10 then [('0' as int + n) as char]
    else Decimal(n / 10) + [('0' as int + n % 10) as char]
  }

  /** Decimal text of an integer as `String(n)` writes it. */
  function Render(n: int): string {
    if n < 0 then "-" + Decimal(-n) else Decimal(n)
  }

  /** `parseInt` reads back what `Render` writes, and stops at the first
      character that cannot continue the number. */
  lemma ParseRendered(n: int, rest: string)
    requires rest == [] || rest[0] !in "0123456789xX"
    ensures ParseInt(Render(n) + rest) == Number(n)
  {
    if n < 0 {
      NegativeRendered(-n, rest);
    } else {
      PositiveRendered(n, rest);
    }
  }

  lemma PositiveRendered(m: nat, rest: string)
    requires rest == [] || rest[0] !in "0123456789xX"
    ensures ParseInt(Render(m) + rest) == Number(m)
  {
    var u := Decimal(m) + rest;
    UnsignedRendered(m, rest);
    DecimalDigits(m);
    assert u[0] == Decimal(m)[0];
    ParseDigits(u);
  }

  lemma NegativeRendered(m: nat, rest: string)
    requires m > 0
    requires rest == [] || rest[0] !in "0123456789xX"
    ensures ParseInt(Render(-(m as int)) + rest) == Number(-(m as int))
  {
    var u := Decimal(m) + rest;
    assert Render(-(m as int)) + rest == "-" + u;
    UnsignedRendered(m, rest);
    ParseNegative(u);
  }

  lemma ParseDigits(u: string)
    requires u != [] && DigitValue(u[0], 10) >= 0
    ensures ParseInt(u) == Unsigned(u)
  {
    assert !Blank(u[0]);
  }

  lemma ParseNegative(u: string)
    ensures ParseInt("-" + u) == match Unsigned(u) case Number(m) => Number(-m) case v => v
  {
    var t := "-" + u;
    assert t[0] == '-' && t[1..] == u;
    assert !Blank(t[0]);
  }

  lemma UnsignedRendered(m: nat, rest: string)
    requires rest == [] || rest[0] !in "0123456789xX"
    ensures Unsigned(Decimal(m) + rest) == Number(m)
  {
    var d := Decimal(m);
    var u := d + rest;
    DecimalDigits(m);
    DigitRunStops(d, rest);
    DecimalValue(m);
    DecimalLead(m);
    assert !(|u| >= 2 && u[0] == '0' && (u[1] == 'x' || u[1] == 'X')) by {
      if |u| >= 2 && u[0] == '0' {
        assert |d| == 1 && u[1] == rest[0];
      }
    }
  }

  lemma RenderStart(n: int, rest: string)
    ensures (Render(n) + rest)[0] == '-' || DigitValue((Render(n) + rest)[0], 10) >= 0
  {
    DecimalDigits(if n < 0 then -n else n);
  }

  lemma {:induction false} DecimalDigits(n: nat)
    ensures forall i :: 0 <= i < |Decimal(n)| ==> DigitValue(Decimal(n)[i], 10) >= 0
    decreases n
  {
    if n >= 10 {
      DecimalDigits(n / 10);
    }
  }

  /** Only zero is written with a leading '0', and it is one character long. */
  lemma {:induction false} DecimalLead(n: nat)
    ensures Decimal(n)[0] == '0' ==> n == 0 && |Decimal(n)| == 1
    decreases n
  {
    if n >= 10 {
      DecimalLead(n / 10);
      assert Decimal(n)[0] == Decimal(n / 10)[0];
    }
  }

  lemma {:induction false} DecimalValue(n: nat)
    ensures Magnitude(Decimal(n), 10) == n
    decreases n
  {
    if n >= 10 {
      var d := Decimal(n);
      assert d[..|d| - 1] == Decimal(n / 10);
      DecimalValue(n / 10);
    }
  }

  lemma {:induction false} DigitRunStops(d: string, rest: string)
    requires forall i :: 0 <= i < |d| ==> DigitValue(d[i], 10) >= 0
    requires rest == [] || rest[0] !in "0123456789xX"
    ensures DigitRun(d + rest, 10) == d
  {
    if d == [] {
      assert d + rest == rest;
      if rest != [] {
        assert !('0' <= rest[0] <= '9');
      }
    } else {
      assert (d + rest)[1..] == d[1..] + rest;
      DigitRunStops(d[1..], rest);
    }
  }

  /** Base 16 is chosen only by the "0x" prefix. */
  lemma HexPrefix()
    ensures ParseInt("0x1A") == Number(26)
  {
    assert TrimStart("0x1A") == "0x1A";
    assert DigitRun("1A", 16) == "1A" by {
      assert DigitRun("A", 16) == "A";
    }
    assert Magnitude("1A", 16) == 26 by {
      assert "1A"[..1] == "1";
      assert Magnitude("1", 16) == 1 by { assert "1"[..0] == ""; }
    }
  }

  /** The prefix without digits after it gives NaN. */
  lemma HexEmpty()
    ensures ParseInt("0x") == NaN
  {
    assert TrimStart("0x") == "0x";
  }

  /** Leading blanks are skipped, the sign is kept, and a unit is ignored. */
  lemma SignedWithUnit()
    ensures ParseInt("  -12px") == Number(-12)
  {
    assert TrimStart("  -12px") == "-12px" by {
      assert "  -12px"[1..] == " -12px" && " -12px"[1..] == "-12px";
    }
    assert "-12px"[1..] == "12px";
    assert DigitRun("12px", 10) == "12" by {
      assert DigitRun("px", 10) == [];
      assert DigitRun("2px", 10) == "2";
    }
    assert Magnitude("12", 10) == 12 by {
      assert "12"[..1] == "1";
      assert Magnitude("1", 10) == 1 by { assert "1"[..0] == ""; }
    }
  }
}
