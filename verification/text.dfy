/** Text formatting used by the lead-scoring note: Ruby's `Integer#to_s`
    and `Array#join(', ')`, each with the parser that undoes it. */
module Text {
  import opened Base

  predicate IsDigit(c: char) {
    '0' <= c <= '9'
  }

  predicate AllDigits(s: string) {
    forall i | 0 <= i < |s| :: IsDigit(s[i])
  }

  /** A character that can occur in the decimal form of an integer. */
  predicate IsNumeral(c: char) {
    c == '-' || IsDigit(c)
  }

  function DigitChar(d: nat): (c: char)
    requires d < 10
    ensures IsDigit(c)
  {
    (48 + d) as char
  }

  function DigitValue(c: char): (d: nat)
    requires IsDigit(c)
    ensures d < 10
    ensures DigitChar(d) == c
  {
    c as int - 48
  }

  /** Decimal form of a natural number, most significant digit first, no leading zeros. */
  function NatToDecimal(n: nat): (s: string)
    ensures 1 <= |s|
    ensures AllDigits(s)
    ensures |s| > 1 ==> s[0] != '0'
    ensures s[0] == '0' <==> n == 0
    decreases n
  {
    if n < 10 then [DigitChar(n)] else NatToDecimal(n / 10) + [DigitChar(n % 10)]
  }

  /** Value of a string of decimal digits. */
  function DecimalToNat(s: string): (n: nat)
    requires AllDigits(s)
    decreases |s|
  {
    if |s| == 0 then 0 else DecimalToNat(s[..|s| - 1]) * 10 + DigitValue(s[|s| - 1])
  }

  lemma {:induction false} NatDecimalRoundTrip(n: nat)
    ensures DecimalToNat(NatToDecimal(n)) == n
    decreases n
  {
    if n >= 10 {
      var s := NatToDecimal(n / 10);
      var t := s + [DigitChar(n % 10)];
      assert t[..|t| - 1] == s;
      NatDecimalRoundTrip(n / 10);
    }
  }

  /** Ruby `Integer#to_s`: an optional minus sign followed by the decimal digits. */
  function IntToDecimal(n: int): (s: string)
    ensures 1 <= |s|
    ensures forall i | 0 <= i < |s| :: IsNumeral(s[i])
    ensures s[0] == '-' <==> n < 0
    ensures n >= 0 ==> |s| == 1 || s[0] != '0'
    ensures n < 0 ==> |s| >= 2 && s[1] != '0'
  {
    if n < 0 then "-" + NatToDecimal(-n) else NatToDecimal(n)
  }

  /** Reads back what `IntToDecimal` writes; `None` for anything else that is not a number. */
  function DecimalToInt(s: string): Option<int> {
    if |s| == 0 then None
    else if s[0] == '-' then
      if 1 < |s| && AllDigits(s[1..]) then var m: int := DecimalToNat(s[1..]); Some(-m) else None
    else if AllDigits(s) then Some(DecimalToNat(s))
    else None
  }

  lemma IntDecimalRoundTrip(n: int)
    ensures DecimalToInt(IntToDecimal(n)) == Some(n)
  {
    if n < 0 {
      var s := IntToDecimal(n);
      assert s[1..] == NatToDecimal(-n);
      NatDecimalRoundTrip(-n);
    } else {
      NatDecimalRoundTrip(n);
    }
  }

  /** Number of leading characters of `s` that can belong to a number. */
  function NumeralPrefixLength(s: string): (k: nat)
    ensures k <= |s|
    ensures forall i | 0 <= i < k :: IsNumeral(s[i])
    ensures k < |s| ==> !IsNumeral(s[k])
    decreases |s|
  {
    if |s| == 0 || !IsNumeral(s[0]) then 0 else 1 + NumeralPrefixLength(s[1..])
  }

  lemma {:induction false} NumeralPrefixOfConcat(a: string, b: string)
    requires forall i | 0 <= i < |a| :: IsNumeral(a[i])
    requires 0 < |b| && !IsNumeral(b[0])
    ensures NumeralPrefixLength(a + b) == |a|
    decreases |a|
  {
    if |a| > 0 {
      assert (a + b)[1..] == a[1..] + b;
      NumeralPrefixOfConcat(a[1..], b);
    } else {
      assert a + b == b;
    }
  }

  /** The separator Ruby's `join(', ')` puts between elements. */
  const Separator: string := ", "

  /** Ruby `Array#join(', ')`. */
  function Join(parts: seq<string>): (s: string)
    ensures |parts| == 0 ==> s == ""
    ensures |parts| == 1 ==> s == parts[0]
    decreases |parts|
  {
    if |parts| == 0 then ""
    else if |parts| == 1 then parts[0]
    else parts[0] + Separator + Join(parts[1..])
  }

  /** Joining two non-empty lists is joining each and putting one separator between them. */
  lemma {:induction false} JoinAppend(a: seq<string>, b: seq<string>)
    requires |a| >= 1 && |b| >= 1
    ensures Join(a + b) == Join(a) + Separator + Join(b)
    decreases |a|
  {
    assert (a + b)[0] == a[0];
    assert (a + b)[1..] == a[1..] + b;
    if |a| > 1 {
      JoinAppend(a[1..], b);
    } else {
      assert a[1..] + b == b;
    }
  }

  /** `s` contains no occurrence of the separator. */
  predicate NoSeparator(s: string) {
    forall i | 0 <= i < |s| - 1 :: !(s[i] == ',' && s[i + 1] == ' ')
  }

  /** The parser that undoes `Join`: the pieces between separators, scanning from the left. */
  function Split(s: string): (parts: seq<string>)
    ensures |parts| >= 1
    decreases |s|
  {
    if |s| == 0 then [""]
    else if |s| >= 2 && s[0] == ',' && s[1] == ' ' then [""] + Split(s[2..])
    else
      var rest := Split(s[1..]);
      [[s[0]] + rest[0]] + rest[1..]
  }

  /** A separator-free piece in front of `tail` becomes the front of the first piece. */
  lemma {:induction false} SplitPrefix(r: string, tail: string)
    requires NoSeparator(r)
    requires 0 < |r| && r[|r| - 1] == ',' ==> |tail| == 0 || tail[0] != ' '
    ensures Split(r + tail) == [r + Split(tail)[0]] + Split(tail)[1..]
    decreases |r|
  {
    if |r| == 0 {
      assert r + tail == tail;
      assert r + Split(tail)[0] == Split(tail)[0];
      assert Split(tail) == [Split(tail)[0]] + Split(tail)[1..];
    } else {
      var s := r + tail;
      assert s[0] == r[0];
      if |r| >= 2 {
        assert !(r[0] == ',' && r[1] == ' ');
      } else if r[0] == ',' {
        assert |tail| == 0 || s[1] == tail[0];
      }
      assert s[1..] == r[1..] + tail;
      SplitPrefix(r[1..], tail);
      assert [r[0]] + (r[1..] + Split(tail)[0]) == r + Split(tail)[0];
    }
  }

  /** Splitting a join gives back the parts, provided no part contains the
      separator and the list is not empty (`join` maps both `[]` and `[""]` to `""`). */
  lemma {:induction false} SplitJoin(parts: seq<string>)
    requires |parts| >= 1
    requires forall i | 0 <= i < |parts| :: NoSeparator(parts[i])
    ensures Split(Join(parts)) == parts
    decreases |parts|
  {
    if |parts| == 1 {
      SplitPrefix(parts[0], "");
      assert parts[0] + "" == parts[0];
    } else {
      var rest := Join(parts[1..]);
      SplitJoin(parts[1..]);
      var tail := Separator + rest;
      assert tail[2..] == rest;
      assert Split(tail) == [""] + Split(rest);
      assert Split(tail)[0] == "" && Split(tail)[1..] == parts[1..];
      SplitPrefix(parts[0], tail);
      assert Join(parts) == parts[0] + tail;
      assert parts[0] + "" == parts[0];
      assert parts == [parts[0]] + parts[1..];
    }
  }
}
