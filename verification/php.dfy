/** The PHP values a record holds and the few PHP built-ins the record abstraction uses:
    ASCII case folding (method names are case-insensitive), `ucfirst`, string conversion
    for the `.` operator, and the rule that turns a decimal string key into an integer key. */
module Php {

  /** A PHP value as stored in a record's payload. `List` stands for a PHP array used as a
      list (`[]`, `['Sally']`); associative arrays, floats, objects and resources are not
      modelled. */
  datatype Value =
    | Null
    | Bool(b: bool)
    | Int(i: int)
    | Str(s: string)
    | List(items: seq<Value>)

  const MinInt64: int := -0x8000_0000_0000_0000
  const MaxInt64: int := 0x7FFF_FFFF_FFFF_FFFF

  function LowerChar(c: char): char {
    if 'A' <= c <= 'Z' then (c as int + 32) as char else c
  }

  function UpperChar(c: char): char {
    if 'a' <= c <= 'z' then (c as int - 32) as char else c
  }

  /** ASCII lower-casing, the folding PHP applies to method names before looking them up:
      every character is folded on its own, and no upper-case ASCII letter is left. */
  function Fold(s: string): (r: string)
    ensures |r| == |s|
    ensures forall i | 0 <= i < |s| :: r[i] == LowerChar(s[i])
    ensures forall i | 0 <= i < |r| :: !('A' <= r[i] <= 'Z')
  {
    seq(|s|, i requires 0 <= i < |s| => LowerChar(s[i]))
  }

  /** PHP's `ucfirst`: the first character becomes upper case (ASCII) without changing
      which letter it is; the rest is untouched. */
  function UcFirst(s: string): (r: string)
    ensures |r| == |s|
    ensures s != [] ==> r[1..] == s[1..]
    ensures s != [] ==> !('a' <= r[0] <= 'z') && LowerChar(r[0]) == LowerChar(s[0])
  {
    if s == [] then [] else [UpperChar(s[0])] + s[1..]
  }

  lemma FoldAppend(a: string, b: string)
    ensures Fold(a + b) == Fold(a) + Fold(b)
  {
    var l, r := Fold(a + b), Fold(a) + Fold(b);
    forall i | 0 <= i < |a + b| ensures l[i] == r[i] {
      if i < |a| {
        assert (a + b)[i] == a[i];
      } else {
        assert (a + b)[i] == b[i - |a|];
      }
    }
  }

  /** Folding twice is folding once: a folded name is its own method-table key. */
  lemma FoldIdempotent(s: string)
    ensures Fold(Fold(s)) == Fold(s)
  {
    forall i | 0 <= i < |s| ensures LowerChar(LowerChar(s[i])) == LowerChar(s[i]) {
    }
  }

  /** Folding forgets what `ucfirst` did: `ucfirst(s)` and `s` name the same method. */
  lemma FoldUcFirst(s: string)
    ensures Fold(UcFirst(s)) == Fold(s)
  {
    if s != [] {
      var u := UcFirst(s);
      forall i | 0 <= i < |s| ensures Fold(u)[i] == Fold(s)[i] {
        if i == 0 {
          assert LowerChar(UpperChar(s[0])) == LowerChar(s[0]);
        } else {
          assert u[i] == s[i];
        }
      }
    }
  }

  predicate IsDigit(c: char) {
    '0' <= c <= '9'
  }

  predicate IsDigits(s: string) {
    forall i | 0 <= i < |s| :: IsDigit(s[i])
  }

  /** The number a string of decimal digits denotes. */
  function DigitsValue(s: string): (n: nat)
    requires IsDigits(s)
  {
    if s == [] then 0
    else
      assert IsDigit(s[|s| - 1]);
      DigitsValue(s[..|s| - 1]) * 10 + (s[|s| - 1] as int - '0' as int)
  }

  /** True when PHP stores the array key `k` as an integer: `k` is "0" or a canonical
      decimal (optional '-', no leading zero) whose value fits a 64-bit signed integer. */
  predicate IsIntegerKey(k: string)
    ensures IsIntegerKey(k) ==> |k| > 0 && (k[0] == '-' || '1' <= k[0] <= '9' || k == "0")
  {
    if k == "0" then true
    else
      var neg := |k| > 0 && k[0] == '-';
      var digits := if neg then k[1..] else k;
      && |digits| > 0
      && '1' <= digits[0] <= '9'
      && IsDigits(digits)
      && DigitsValue(digits) <= (if neg then -MinInt64 else MaxInt64)
  }

  /** The integer an integer key stands for. */
  function IntegerKeyValue(k: string): (v: int)
    requires IsIntegerKey(k)
  {
    if k == "0" then 0
    else
      var neg := |k| > 0 && k[0] == '-';
      var digits := if neg then k[1..] else k;
      var n: int := DigitsValue(digits);
      if neg then -n else n
  }

  /** The decimal digits of `n`, with no leading zero; they denote `n` again. */
  function NatToDecimal(n: nat): (r: string)
    ensures |r| > 0
    ensures IsDigits(r)
    ensures DigitsValue(r) == n
    ensures (r[0] == '0') == (n == 0) && (n == 0 ==> r == "0")
  {
    var d := ['0' + (n % 10) as char];
    if n < 10 then d
    else
      var r := NatToDecimal(n / 10) + d;
      assert r[..|r| - 1] == NatToDecimal(n / 10);
      r
  }

  /** PHP's decimal form of an integer. */
  function IntToDecimal(i: int): string {
    if i < 0 then "-" + NatToDecimal(-i) else NatToDecimal(i)
  }

  /** A digit string without a leading zero is the decimal form of its own value. */
  lemma {:induction false} CanonicalDigits(s: string)
    requires |s| > 0 && s[0] != '0' && IsDigits(s)
    ensures NatToDecimal(DigitsValue(s)) == s
  {
    var last := s[|s| - 1] as int - '0' as int;
    assert 0 <= last < 10;
    if |s| > 1 {
      var front := s[..|s| - 1];
      CanonicalDigits(front);
      var v := DigitsValue(front);
      assert v != 0;
      assert DigitsValue(s) == v * 10 + last;
      assert (v * 10 + last) / 10 == v && (v * 10 + last) % 10 == last;
      assert s == front + [s[|s| - 1]];
    }
  }

  /** The decimal form of every 64-bit integer is a key PHP stores as that integer. */
  lemma DecimalIsIntegerKey(i: int)
    requires MinInt64 <= i <= MaxInt64
    ensures IsIntegerKey(IntToDecimal(i))
    ensures IntegerKeyValue(IntToDecimal(i)) == i
  {
    var k := IntToDecimal(i);
    if i < 0 {
      assert k[1..] == NatToDecimal(-i);
    }
  }

  /** Every integer key is the decimal form of a 64-bit integer: together with
      `DecimalIsIntegerKey`, integer keys are exactly those decimal forms. */
  lemma IntegerKeyIsDecimal(k: string)
    requires IsIntegerKey(k)
    ensures MinInt64 <= IntegerKeyValue(k) <= MaxInt64
    ensures IntToDecimal(IntegerKeyValue(k)) == k
  {
    if k != "0" {
      if k[0] == '-' {
        CanonicalDigits(k[1..]);
        assert k == "-" + k[1..];
      } else {
        CanonicalDigits(k);
      }
    }
  }

  /** PHP's conversion of a value to string, as the `.` operator applies it: only null,
      false and the empty string convert to the empty string; a string is kept as it is. */
  function ToString(v: Value): (r: string)
    ensures r == "" <==> v == Null || v == Bool(false) || v == Str("")
    ensures v.Str? ==> r == v.s
  {
    match v
    case Null => ""
    case Bool(b) => if b then "1" else ""
    case Int(i) => IntToDecimal(i)
    case Str(s) => s
    case List(_) => "Array"
  }
}
