/** Phone comparison of the Z-API `ConnectedCallback`: the channel's number with
    every `+` removed against the number the provider reports, where a Brazilian
    mobile number written with the ninth digit and the same number without it are
    treated as one number. */
module Phone {

  /** Ruby `String#delete('+')`. */
  function DeletePlus(s: string): (r: string)
    ensures '+' !in r
    ensures |r| <= |s|
    ensures '+' !in s ==> r == s
    ensures multiset(r) == multiset(s)['+' := 0]
    decreases |s|
  {
    if |s| == 0 then ""
    else
      assert s == [s[0]] + s[1..];
      if s[0] == '+' then DeletePlus(s[1..])
      else [s[0]] + DeletePlus(s[1..])
  }

  /** Removing `+` distributes over concatenation. */
  lemma {:induction false} DeletePlusConcat(a: string, b: string)
    ensures DeletePlus(a + b) == DeletePlus(a) + DeletePlus(b)
    decreases |a|
  {
    if |a| == 0 {
      assert a + b == b;
    } else {
      assert (a + b)[1..] == a[1..] + b;
      DeletePlusConcat(a[1..], b);
    }
  }

  /** A leading `+` is dropped and a plus-free rest is kept. */
  lemma DeletePlusOfPlusPrefix(t: string)
    requires '+' !in t
    ensures DeletePlus("+" + t) == t
  {
    var s := "+" + t;
    assert s[0] == '+' && s[1..] == t;
  }

  /** A Brazilian mobile number in international form with the ninth digit:
      country code 55, a two-digit area code, the digit 9, then eight digits. */
  predicate IsNinthDigitForm(d: string) {
    |d| == 13 && d[0] == '5' && d[1] == '5' && d[4] == '9'
  }

  /** The same number without the ninth digit. */
  function DropNinthDigit(d: string): (r: string)
    requires IsNinthDigitForm(d)
    ensures |r| == 12 && r[..4] == d[..4] && r[4..] == d[5..]
  {
    d[..4] + d[5..]
  }

  /** The form two numbers are compared in: a ninth-digit mobile number loses its
      ninth digit, every other string is kept as it is. */
  function Canonical(d: string): (r: string)
    ensures IsNinthDigitForm(d) ==> r == DropNinthDigit(d)
    ensures !IsNinthDigitForm(d) ==> r == d
    ensures !IsNinthDigitForm(r)
  {
    if IsNinthDigitForm(d) then DropNinthDigit(d) else d
  }

  /** Canonicalising twice is canonicalising once. */
  lemma CanonicalIdempotent(d: string)
    ensures Canonical(Canonical(d)) == Canonical(d)
  {
  }

  /** One of the two strings is a ninth-digit mobile number and the other is that number without it. */
  predicate NinthDigitVariants(a: string, b: string) {
    (IsNinthDigitForm(a) && b == DropNinthDigit(a)) || (IsNinthDigitForm(b) && a == DropNinthDigit(b))
  }

  /** Whether the number reported by the provider is the channel's own number. */
  predicate SameNumber(channelNumber: string, reported: string): (same: bool)
    ensures DeletePlus(channelNumber) == reported ==> same
    ensures NinthDigitVariants(DeletePlus(channelNumber), reported) ==> same
  {
    Canonical(DeletePlus(channelNumber)) == Canonical(reported)
  }

  /** What `SameNumber` accepts, stated without `Canonical`: the reported number is the
      channel's number without `+`, or one is the other with the ninth digit added. */
  lemma SameNumberIff(channelNumber: string, reported: string)
    ensures SameNumber(channelNumber, reported) <==>
            (DeletePlus(channelNumber) == reported || NinthDigitVariants(DeletePlus(channelNumber), reported))
  {
    var d := DeletePlus(channelNumber);
    if IsNinthDigitForm(d) && IsNinthDigitForm(reported) && Canonical(d) == Canonical(reported) {
      assert d == d[..4] + [d[4]] + d[5..];
      assert reported == reported[..4] + [reported[4]] + reported[5..];
    }
  }

  /** The channel's own number, sent back without `+`, is accepted. */
  lemma SameNumberWithoutPlus(channelNumber: string)
    ensures SameNumber(channelNumber, DeletePlus(channelNumber))
  {
  }

  /** `+55 AA 9XXXXXXXX` on the channel matches `55 AA XXXXXXXX` from the provider and the other way round. */
  lemma NinthDigitMatches(area: string, local: string)
    requires |area| == 2 && |local| == 8
    requires '+' !in area && '+' !in local
    ensures SameNumber("+55" + area + "9" + local, "55" + area + local)
    ensures SameNumber("+55" + area + local, "55" + area + "9" + local)
  {
    var long := "55" + area + "9" + local;
    var short := "55" + area + local;
    assert '+' !in long && '+' !in short;
    DeletePlusOfPlusPrefix(long);
    DeletePlusOfPlusPrefix(short);
    assert "+55" + area + "9" + local == "+" + long;
    assert "+55" + area + local == "+" + short;
    assert long[..4] == short[..4] && long[5..] == short[4..];
    assert DropNinthDigit(long) == short;
    assert NinthDigitVariants(long, short) && NinthDigitVariants(short, long);
  }
}
