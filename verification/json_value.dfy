/** Decoded JSON values, and the few operations of Python and JavaScript that
    the handlers apply to them: truth testing, substring search and the decimal
    rendering of a status code. */
module JsonValue {

  /** A decoded JSON document. Numbers are kept as integers: the handlers never
      look inside an upstream number except to test its truth value. */
  datatype Json =
    | Null
    | Bool(b: bool)
    | Num(n: int)
    | Str(s: string)
    | Arr(items: seq<Json>)
    | Obj(fields: map<string, Json>)

  /** Python's truth value of a decoded JSON value, as used by `if not url`:
      exactly the six empty or zero values are false. */
  predicate Truthy(v: Json): (t: bool)
    ensures !t <==> v in {Null, Bool(false), Num(0), Str(""), Arr([]), Obj(map[])}
  {
    match v
    case Null => false
    case Bool(b) => b
    case Num(n) => n != 0
    case Str(s) => s != ""
    case Arr(items) => items != []
    case Obj(fields) => fields != map[]
  }

  /** `s` begins with `prefix`. */
  predicate StartsWith(s: string, prefix: string)
  {
    |prefix| <= |s| && s[..|prefix|] == prefix
  }

  /** Python's `needle in hay` on two strings, scanning `hay` from the left. */
  predicate Contains(hay: string, needle: string)
    decreases |hay|
  {
    StartsWith(hay, needle) || (hay != [] && Contains(hay[1..], needle))
  }

  /** `Contains` finds `needle` exactly when it occurs at some position of `hay`. */
  lemma {:induction false} ContainsIffOccurs(hay: string, needle: string)
    ensures Contains(hay, needle) <==>
              exists i :: 0 <= i <= |hay| && StartsWith(hay[i..], needle)
  {
    if hay == [] {
      if exists i :: 0 <= i <= |hay| && StartsWith(hay[i..], needle) {
        var i :| 0 <= i <= |hay| && StartsWith(hay[i..], needle);
        assert hay[i..] == hay;
      }
    } else {
      ContainsIffOccurs(hay[1..], needle);
      if StartsWith(hay, needle) {
        assert hay[0..] == hay;
        assert StartsWith(hay[0..], needle);
      } else if Contains(hay, needle) {
        var i :| 0 <= i <= |hay[1..]| && StartsWith(hay[1..][i..], needle);
        assert hay[1..][i..] == hay[i + 1..];
        assert StartsWith(hay[i + 1..], needle);
      }
      if exists i :: 0 <= i <= |hay| && StartsWith(hay[i..], needle) {
        var i :| 0 <= i <= |hay| && StartsWith(hay[i..], needle);
        if i == 0 {
          assert hay[i..] == hay;
        } else {
          assert hay[1..][i - 1..] == hay[i..];
          assert 0 <= i - 1 <= |hay[1..]| && StartsWith(hay[1..][i - 1..], needle);
        }
      }
    }
  }

  /** A string shorter than `needle` never contains it. */
  lemma ShortNeverContains(hay: string, needle: string)
    requires |hay| < |needle|
    ensures !Contains(hay, needle)
  {
    ContainsIffOccurs(hay, needle);
  }

  predicate IsDigit(c: char)
  {
    '0' <= c <= '9'
  }

  function DigitChar(d: nat): (c: char)
    requires d < 10
    ensures IsDigit(c) && c as int - '0' as int == d
  {
    ('0' as int + d) as char
  }

  /** The number a string of decimal digits denotes. */
  function DigitsValue(s: string): nat
    requires forall i :: 0 <= i < |s| ==> IsDigit(s[i])
    decreases |s|
  {
    if s == [] then 0
    else 10 * DigitsValue(s[..|s| - 1]) + DigitValue(s[|s| - 1])
  }

  function DigitValue(c: char): nat
    requires IsDigit(c)
  {
    c as int - '0' as int
  }

  /** The decimal form of `n`, as Python's `str(n)` and JavaScript's template
      literals write a non-negative integer: digits that read back as `n`,
      three of them for a status code. */
  function NatToString(n: nat): (s: string)
    ensures s != [] && forall i :: 0 <= i < |s| ==> IsDigit(s[i])
    ensures DigitsValue(s) == n
    ensures 100 <= n < 1000 ==> |s| == 3
    decreases n
  {
    if n < 10 then [DigitChar(n)]
    else
      var s := NatToString(n / 10) + [DigitChar(n % 10)];
      assert s[..|s| - 1] == NatToString(n / 10);
      s
  }
}
