/** PHP scalar values as the theme code receives them from WordPress (request
    fields, post fields, meta rows), with the two conversions the handlers rely
    on: boolean conversion (`if ($v)`, `!empty($v)`) and `intval`. */
module Php {

  /** A PHP scalar. Arrays are modelled where they occur, as sequences or maps. */
  datatype Val = Null | Bool(b: bool) | Int(i: int) | Str(s: string)

  /** PHP's conversion to boolean: null, false, 0, "" and "0" are falsy. */
  predicate Truthy(v: Val)
  {
    match v
    case Null => false
    case Bool(b) => b
    case Int(i) => i != 0
    case Str(s) => s != "" && s != "0"
  }

  /** `isset($a[$k])`: the key is present and its value is not null. */
  predicate IsSet<K>(a: map<K, Val>, k: K)
  {
    k in a && a[k] != Null
  }

  predicate IsSpace(c: char)
  {
    c == ' ' || c == '\t' || c == '\n' || c == '\r' || c == '\U{000B}' || c == '\U{000C}'
  }

  predicate IsDigit(c: char)
  {
    '0' <= c <= '9'
  }

  predicate AllDigits(d: string)
  {
    forall k :: 0 <= k < |d| ==> IsDigit(d[k])
  }

  /** The string without its leading white space. */
  function SkipSpace(s: string): (r: string)
    ensures |r| <= |s| && r == s[|s| - |r|..]
    ensures r == [] || !IsSpace(r[0])
  {
    if s != [] && IsSpace(s[0]) then SkipSpace(s[1..]) else s
  }

  /** The longest prefix of `s` made of decimal digits. */
  function DigitRun(s: string): (r: string)
    ensures |r| <= |s| && r == s[..|r|]
    ensures AllDigits(r)
    ensures |r| < |s| ==> !IsDigit(s[|r|])
  {
    if s != [] && IsDigit(s[0]) then [s[0]] + DigitRun(s[1..]) else []
  }

  /** The number a string of decimal digits denotes. */
  function DigitsValue(d: string): nat
    requires AllDigits(d)
  {
    if d == [] then 0 else DigitsValue(d[..|d| - 1]) * 10 + (d[|d| - 1] as int - '0' as int)
  }

  /** `intval` of a string: optional leading white space, an optional sign,
      then the longest run of digits; anything else yields 0. */
  function StrToInt(s: string): int
  {
    var t := SkipSpace(s);
    if t != [] && t[0] == '-' then 0 - DigitsValue(DigitRun(t[1..]))
    else if t != [] && t[0] == '+' then DigitsValue(DigitRun(t[1..]))
    else DigitsValue(DigitRun(t))
  }

  /** PHP's `intval`. */
  function IntVal(v: Val): int
  {
    match v
    case Null => 0
    case Bool(b) => if b then 1 else 0
    case Int(i) => i
    case Str(s) => StrToInt(s)
  }

  /** WordPress's `absint`, which the meta API applies to object ids. */
  function AbsInt(v: Val): nat
  {
    var n := IntVal(v);
    if n < 0 then -n else n
  }

  predicate AllSpace(s: string)
  {
    forall k :: 0 <= k < |s| ==> IsSpace(s[k])
  }

  /** `is_numeric` for strings that spell an integer: optional white space,
      an optional sign, at least one digit, then only white space. */
  predicate IsIntegerString(s: string)
  {
    var t := SkipSpace(s);
    var u := if t != [] && (t[0] == '-' || t[0] == '+') then t[1..] else t;
    var d := DigitRun(u);
    d != [] && AllSpace(u[|d|..])
  }

  /** The object id the WordPress meta API works on: `absint` of a numeric
      id; 0, which the API rejects, for anything that is not numeric. */
  function ObjectId(v: Val): (r: nat)
    ensures r != 0 ==> r == AbsInt(v)
  {
    match v
    case Int(_) => AbsInt(v)
    case Str(s) => if IsIntegerString(s) then AbsInt(v) else 0
    case _ => 0
  }

  function DigitChar(d: nat): char
    requires d < 10
  {
    ('0' as int + d) as char
  }

  /** The decimal digits of a natural number, without leading zeros. */
  function Digits(n: nat): (r: string)
    ensures |r| >= 1 && AllDigits(r)
    ensures |r| == 1 <==> n < 10
  {
    if n < 10 then [DigitChar(n)] else Digits(n / 10) + [DigitChar(n % 10)]
  }

  /** PHP's `(string)` conversion of an integer. */
  function Decimal(n: int): string
  {
    if n < 0 then "-" + Digits(-n) else Digits(n)
  }

  /** PHP's `(string)` conversion of a scalar. */
  function StrVal(v: Val): string
  {
    match v
    case Null => ""
    case Bool(b) => if b then "1" else ""
    case Int(i) => Decimal(i)
    case Str(s) => s
  }

  lemma {:induction false} DigitsValueOfDigits(n: nat)
    ensures DigitsValue(Digits(n)) == n
  {
    if n >= 10 {
      var d := Digits(n);
      DigitsValueOfDigits(n / 10);
      assert d[..|d| - 1] == Digits(n / 10);
    }
  }

  lemma {:induction false} DigitRunOfDigits(d: string)
    requires AllDigits(d)
    ensures DigitRun(d) == d
  {
    if d != [] {
      DigitRunOfDigits(d[1..]);
    }
  }

  /** A digit string has no leading white space or sign. */
  lemma PlainDigits(d: string)
    requires d != [] && AllDigits(d)
    ensures SkipSpace(d) == d && d[0] != '-' && d[0] != '+'
    ensures SkipSpace("-" + d) == "-" + d && ("-" + d)[1..] == d
  {
    assert IsDigit(d[0]);
    assert ("-" + d)[0] == '-';
  }

  lemma StrToIntOfDigits(d: string)
    requires d != [] && AllDigits(d)
    ensures StrToInt(d) == DigitsValue(d)
    ensures StrToInt("-" + d) == 0 - DigitsValue(d)
  {
    DigitRunOfDigits(d);
    PlainDigits(d);
  }

  /** A digit string, with or without a minus sign, is an integer string. */
  lemma IntegerStringOfDigits(d: string)
    requires d != [] && AllDigits(d)
    ensures IsIntegerString(d) && IsIntegerString("-" + d)
  {
    DigitRunOfDigits(d);
    PlainDigits(d);
    assert d[|d|..] == [];
  }

  /** A number written out in decimal reads back as the same number. */
  lemma {:induction false} IntValOfDecimal(n: int)
    ensures IntVal(Str(Decimal(n))) == n
  {
    var m: nat := if n < 0 then -n else n;
    DigitsValueOfDigits(m);
    StrToIntOfDigits(Digits(m));
  }

  /** A decimal string is truthy exactly when the number is non-zero, so for
      ids that arrive as decimal strings PHP's `!$id` and `intval($id) == 0`
      agree. */
  lemma {:induction false} TruthyDecimal(n: int)
    ensures Truthy(Str(Decimal(n))) <==> n != 0
  {
    if n > 0 {
      if n < 10 {
        assert Digits(n)[0] != '0';
      } else {
        assert |Digits(n)| != 1;
      }
    } else if n < 0 {
      assert Decimal(n)[0] == '-';
    }
  }

  /** A decimal id names the object with that number, whatever its sign. */
  lemma ObjectIdOfDecimal(n: int)
    ensures ObjectId(Str(Decimal(n))) == if n < 0 then -n else n
  {
    IntegerStringOfDigits(Digits(if n < 0 then -n else n));
    IntValOfDecimal(n);
  }

  /** A string with text after its digits is not numeric, so it names no object. */
  lemma TrailingTextIsNoId()
    ensures ObjectId(Str("12abc")) == 0
  {
    var s := "12abc";
    assert s[0] == '1' && !IsSpace(s[0]) && s[0] != '-' && s[0] != '+';
    assert SkipSpace(s) == s;
    assert s[1..] == "2abc" && s[1..][1..] == "abc";
    assert DigitRun("abc") == [];
    assert DigitRun("2abc") == "2";
    assert DigitRun(s) == "12";
    assert s[2..] == "abc";
    assert !IsSpace(s[2]);
  }
}
