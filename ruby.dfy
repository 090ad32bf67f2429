/**
 * The slice of Ruby's object model the rendering rules depend on: the values
 * a procedure, a method or an option can produce, Ruby truthiness, and
 * `to_s`, which the embed policy compares against "0" and "false".
 */
module Ruby {

  /**
   * A Ruby object as the rendering rules see it. Hash keys are strings. A
   * hash object here is only printed (`to_s`), so its entries are kept as
   * written; the hashes the core builds by assignment are `OrderedHash.Hash`.
   */
  datatype Value =
    | Nil
    | Bool(b: bool)
    | Int(i: int)
    | Str(s: string)
    | Sym(name: string)
    | List(items: seq<Value>)
    | Hash(entries: seq<(string, Value)>)

  /** The exceptions the core can raise. */
  datatype Error =
    | NoMethodError(methodName: string)
    | InvalidDefinition(message: string)

  /** Ruby truthiness: only `false` and `nil` are falsy; `0`, `""` and empty containers are truthy. */
  predicate Truthy(v: Value) {
    !(v.Nil? || v == Bool(false))
  }

  // ---------------------------------------------------------------- integers

  function DigitChar(d: nat): char
    requires d < 10
  {
    ('0' as int + d) as char
  }

  /** Decimal digits of `n`, most significant first, as `Integer#to_s` prints them. */
  function NatToS(n: nat): string
    decreases n
  {
    if n < 10 then [DigitChar(n)] else NatToS(n / 10) + [DigitChar(n % 10)]
  }

  /** `Integer#to_s`: a minus sign before the digits of a negative number. */
  function IntToS(i: int): string {
    if i < 0 then "-" + NatToS(-i) else NatToS(i)
  }

  predicate IsDigits(s: string) {
    forall k :: 0 <= k < |s| ==> '0' <= s[k] <= '9'
  }

  /** Reads a string of decimal digits back as a number (the partner of NatToS). */
  function ParseDigits(s: string): nat
    requires IsDigits(s)
    decreases |s|
  {
    if s == [] then 0 else ParseDigits(s[..|s| - 1]) * 10 + (s[|s| - 1] as int - '0' as int)
  }

  /** Reads an optional minus sign and digits back as an integer (the partner of IntToS). */
  function ParseInt(s: string): int
    requires IsDigits(s) || (|s| > 0 && s[0] == '-' && IsDigits(s[1..]))
  {
    if |s| > 0 && s[0] == '-' then -(ParseDigits(s[1..]) as int) else ParseDigits(s)
  }

  lemma {:induction false} NatToSShape(n: nat)
    ensures IsDigits(NatToS(n))
    ensures |NatToS(n)| >= 1
    ensures n >= 10 <==> |NatToS(n)| >= 2
  {
    if n >= 10 {
      NatToSShape(n / 10);
    }
  }

  /** Printing a number and reading it back gives the number again. */
  lemma {:induction false} NatToSRoundTrip(n: nat)
    ensures IsDigits(NatToS(n)) && ParseDigits(NatToS(n)) == n
  {
    NatToSShape(n);
    if n >= 10 {
      var s := NatToS(n);
      NatToSRoundTrip(n / 10);
      assert s[..|s| - 1] == NatToS(n / 10);
    } else {
      assert NatToS(n)[..0] == [];
    }
  }

  lemma IntToSRoundTrip(i: int)
    ensures var s := IntToS(i);
            (IsDigits(s) || (|s| > 0 && s[0] == '-' && IsDigits(s[1..]))) && ParseInt(s) == i
  {
    if i < 0 {
      NatToSRoundTrip(-i);
      NatToSShape(-i);
      assert IntToS(i)[1..] == NatToS(-i);
    } else {
      NatToSRoundTrip(i);
      NatToSShape(i);
    }
  }

  /** The only integer that prints as "0" is zero. */
  lemma IntToSIsZero(i: int)
    ensures IntToS(i) == "0" <==> i == 0
  {
    if i < 0 {
      assert IntToS(i)[0] == '-';
    } else {
      NatToSShape(i);
    }
  }

  /** No integer prints as "false". */
  lemma IntToSNotFalse(i: int)
    ensures IntToS(i) != "false"
  {
    var s := IntToS(i);
    if i < 0 {
      assert s[0] == '-';
    } else {
      NatToSShape(i);
      assert '0' <= s[0] <= '9';
    }
  }

  // ---------------------------------------------------------------- to_s

  function Join(parts: seq<string>): string
    decreases |parts|
  {
    if parts == [] then ""
    else if |parts| == 1 then parts[0]
    else parts[0] + ", " + Join(parts[1..])
  }

  /**
   * `inspect`, which `Array#to_s` and `Hash#to_s` use for their elements, in
   * the `{"k"=>v}` hash notation; string contents are printed without escapes.
   */
  function Inspect(v: Value): string
    decreases v
  {
    match v
    case Nil => "nil"
    case Bool(b) => if b then "true" else "false"
    case Int(i) => IntToS(i)
    case Str(s) => "\"" + s + "\""
    case Sym(name) => ":" + name
    case List(items) =>
      "[" + Join(seq(|items|, k requires 0 <= k < |items| => Inspect(items[k]))) + "]"
    case Hash(entries) =>
      "{" + Join(seq(|entries|, k requires 0 <= k < |entries| =>
                       "\"" + entries[k].0 + "\"=>" + Inspect(entries[k].1))) + "}"
  }

  /** `to_s`: nil prints empty, strings and symbols print their text, containers print `inspect`. */
  function ToS(v: Value): string {
    match v
    case Nil => ""
    case Bool(b) => if b then "true" else "false"
    case Int(i) => IntToS(i)
    case Str(s) => s
    case Sym(name) => name
    case List(_) => Inspect(v)
    case Hash(_) => Inspect(v)
  }

  /** Exactly the zero integer and the text "0" (as string or symbol) print as "0". */
  lemma ToSIsZero(v: Value)
    ensures ToS(v) == "0" <==> v in {Int(0), Str("0"), Sym("0")}
  {
    match v
    case Int(i) => IntToSIsZero(i);
    case List(items) => assert ToS(v)[0] == '[';
    case Hash(entries) => assert ToS(v)[0] == '{';
    case _ =>
  }

  /** Exactly `false` and the text "false" (as string or symbol) print as "false". */
  lemma ToSIsFalse(v: Value)
    ensures ToS(v) == "false" <==> v in {Bool(false), Str("false"), Sym("false")}
  {
    match v
    case Int(i) => IntToSNotFalse(i);
    case List(items) => assert ToS(v)[0] == '[';
    case Hash(entries) => assert ToS(v)[0] == '{';
    case _ =>
  }
}
