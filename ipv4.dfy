/**
 * Dotted-decimal IPv4 text, with the rules of Python's `ipaddress.IPv4Address`:
 * exactly four dot-separated octets, each one to three ASCII digits, no leading
 * zero, value at most 255. Text without a ':' can never be an IPv6 address, so for
 * such text `ipaddress.ip_address` succeeds exactly when this parse does, and
 * `str()` of the parsed address gives back the same text.
 */
module Ipv4 {
  import opened Options
  import opened PyText

  predicate IsOctet(s: string) {
    && 1 <= |s| <= 3
    && IsDigits(s)
    && (s[0] == '0' ==> |s| == 1)
    && DigitsValue(s) <= 255
  }

  predicate IsIPv4(s: string) {
    var parts := Split(s, '.');
    |parts| == 4 && forall i :: 0 <= i < 4 ==> IsOctet(parts[i])
  }

  predicate IsAddress(octets: seq<nat>) {
    |octets| == 4 && forall i :: 0 <= i < 4 ==> octets[i] <= 255
  }

  /** `ipaddress.IPv4Address(s)`: the four octet values, or `None` for invalid text. */
  function Parse(s: string): (r: Option<seq<nat>>)
    ensures r.Some? <==> IsIPv4(s)
    ensures r.Some? ==> IsAddress(r.value)
  {
    if IsIPv4(s) then
      var parts := Split(s, '.');
      Some(seq(4, i requires 0 <= i < 4 => DigitsValue(parts[i])))
    else None
  }

  /** `str(address)`: the canonical dotted-decimal text. */
  function Format(octets: seq<nat>): string
    requires IsAddress(octets)
  {
    Join(OctetTexts(octets), ".")
  }

  /** The decimal text of each octet. */
  function OctetTexts(octets: seq<nat>): (r: seq<string>)
    requires IsAddress(octets)
    ensures |r| == 4
  {
    seq(4, i requires 0 <= i < 4 => NatToString(octets[i]))
  }

  /** `str(ip_address(s))` for valid text. */
  function Canonical(s: string): (r: string)
    requires IsIPv4(s)
    ensures r == s
  {
    FormatOfParse(s);
    Format(Parse(s).value)
  }

  /** Valid text is already canonical: `str(ip_address(s)) == s`. */
  lemma FormatOfParse(s: string)
    requires IsIPv4(s)
    ensures Format(Parse(s).value) == s
  {
    var parts := Split(s, '.');
    var octets := Parse(s).value;
    var texts := seq(4, i requires 0 <= i < 4 => NatToString(octets[i]));
    forall i | 0 <= i < 4 ensures texts[i] == parts[i] {
      CanonicalDigits(parts[i]);
    }
    assert texts == parts;
    JoinOfSplit(s, '.');
  }

  /** Every address formats to valid text that parses back to it. */
  lemma ParseOfFormat(octets: seq<nat>)
    requires IsAddress(octets)
    ensures IsIPv4(Format(octets)) && Parse(Format(octets)) == Some(octets)
  {
    var texts := OctetTexts(octets);
    OctetTextsValid(octets);
    SplitOfJoin(texts, '.');
    ParseOfOctetTexts(Format(octets), octets);
  }

  lemma OctetTextsValid(octets: seq<nat>)
    requires IsAddress(octets)
    ensures forall i :: 0 <= i < 4 ==> '.' !in OctetTexts(octets)[i]
    ensures forall i :: 0 <= i < 4 ==> IsOctet(OctetTexts(octets)[i])
    ensures forall i :: 0 <= i < 4 ==> DigitsValue(OctetTexts(octets)[i]) == octets[i]
  {
    forall i | 0 <= i < 4
      ensures '.' !in OctetTexts(octets)[i] && IsOctet(OctetTexts(octets)[i])
      ensures DigitsValue(OctetTexts(octets)[i]) == octets[i]
    {
      OctetText(octets[i]);
    }
  }

  lemma ParseOfOctetTexts(s: string, octets: seq<nat>)
    requires IsAddress(octets) && Split(s, '.') == OctetTexts(octets)
    requires forall i :: 0 <= i < 4 ==> IsOctet(OctetTexts(octets)[i])
    requires forall i :: 0 <= i < 4 ==> DigitsValue(OctetTexts(octets)[i]) == octets[i]
    ensures IsIPv4(s) && Parse(s) == Some(octets)
  {
    assert IsIPv4(s);
    var r := Parse(s).value;
    assert |r| == |octets| == 4;
    assert forall i | 0 <= i < 4 :: r[i] == octets[i];
    assert r == octets;
  }

  lemma OctetText(n: nat)
    requires n <= 255
    ensures IsOctet(NatToString(n)) && DigitsValue(NatToString(n)) == n && '.' !in NatToString(n)
  {
    var s := NatToString(n);
    DigitsValueOfNatToString(n);
    NatToStringLength(n);
    assert s[0] == '0' ==> |s| == 1;
    assert forall k :: 0 <= k < |s| ==> IsDigit(s[k]);
  }

  lemma NatToStringLength(n: nat)
    ensures n < 10 ==> |NatToString(n)| == 1
    ensures n < 100 ==> |NatToString(n)| <= 2
    ensures n < 1000 ==> |NatToString(n)| <= 3
  {
    if n >= 10 {
      NatToStringLength(n / 10);
    }
  }

  /** A digit string without a leading zero is the decimal text of its value. */
  lemma {:induction false} CanonicalDigits(s: string)
    requires IsDigits(s) && (s[0] == '0' ==> |s| == 1)
    ensures NatToString(DigitsValue(s)) == s
    decreases |s|
  {
    if |s| > 1 {
      var init := s[..|s| - 1];
      assert init[0] == s[0];
      LeadingDigitPositive(init);
      CanonicalDigits(init);
      var v := DigitsValue(s);
      assert v / 10 == DigitsValue(init) && v % 10 == s[|s| - 1] as int - '0' as int;
    }
  }

  lemma {:induction false} LeadingDigitPositive(s: string)
    requires IsDigits(s) && s[0] != '0'
    ensures DigitsValue(s) > 0
    decreases |s|
  {
    if |s| > 1 {
      var init := s[..|s| - 1];
      assert init[0] == s[0];
      LeadingDigitPositive(init);
    }
  }

  /** Joining the parts of `s.split(c)` with `c` gives `s` back. */
  lemma {:induction false} JoinOfSplit(s: string, c: char)
    ensures Join(Split(s, c), [c]) == s
    decreases |s|
  {
    var head := TakeBefore(s, c);
    if |head| < |s| {
      var rest := s[|head| + 1..];
      assert s == head + [c] + rest by {
        assert s == s[..|head|] + [s[|head|]] + s[|head| + 1..];
      }
      SplitOfSeparated(head, rest, c);
      JoinOfSplit(rest, c);
      JoinCons(head, Split(rest, c), [c]);
    }
  }

  /** Splitting a `c`-join of parts free of `c` gives the parts back. */
  lemma {:induction false} SplitOfJoin(parts: seq<string>, c: char)
    requires |parts| >= 1
    requires forall i :: 0 <= i < |parts| ==> c !in parts[i]
    ensures Split(Join(parts, [c]), c) == parts
  {
    var s := Join(parts, [c]);
    if |parts| == 1 {
      assert TakeBefore(s, c) == s;
    } else {
      var rest := Join(parts[1..], [c]);
      assert s == parts[0] + [c] + rest;
      SplitOfSeparated(parts[0], rest, c);
      SplitOfJoin(parts[1..], c);
      assert parts == [parts[0]] + parts[1..];
    }
  }

  /** A part free of `c`, then `c`, splits off as the first part. */
  lemma SplitOfSeparated(head: string, rest: string, c: char)
    requires c !in head
    ensures Split(head + [c] + rest, c) == [head] + Split(rest, c)
  {
    var s := head + [c] + rest;
    TakeBeforeOfPrefix(head, rest, c);
    assert s[|head| + 1..] == rest;
  }

  predicate DotsAndDigits(s: string) {
    forall i :: 0 <= i < |s| ==> s[i] == '.' || IsDigit(s[i])
  }

  lemma DotsAndDigitsConcat(a: string, b: string)
    requires DotsAndDigits(a) && DotsAndDigits(b)
    ensures DotsAndDigits(a + b)
  {
    forall i | 0 <= i < |a + b|
      ensures (a + b)[i] == '.' || IsDigit((a + b)[i])
    {
      if i >= |a| {
        assert (a + b)[i] == b[i - |a|];
      }
    }
  }

  /** Valid IPv4 text is made of digits and dots only. */
  lemma IPv4Chars(s: string)
    requires IsIPv4(s)
    ensures DotsAndDigits(s)
    ensures |s| >= 7
  {
    var parts := Split(s, '.');
    JoinOfSplit(s, '.');
    JoinOfOctets(parts);
  }

  lemma JoinOfOctets(parts: seq<string>)
    requires |parts| == 4 && forall i :: 0 <= i < 4 ==> IsOctet(parts[i])
    ensures DotsAndDigits(Join(parts, ".")) && |Join(parts, ".")| >= 7
  {
    var tail2 := parts[2] + "." + parts[3];
    var tail1 := parts[1] + "." + tail2;
    assert Join(parts[2..], ".") == tail2;
    assert Join(parts[1..], ".") == tail1;
    assert Join(parts, ".") == parts[0] + "." + tail1;
    assert IsOctet(parts[0]) && IsOctet(parts[1]) && IsOctet(parts[2]) && IsOctet(parts[3]);
    DotsAndDigitsConcat(parts[2], ".");
    DotsAndDigitsConcat(parts[2] + ".", parts[3]);
    DotsAndDigitsConcat(parts[1], ".");
    DotsAndDigitsConcat(parts[1] + ".", tail2);
    DotsAndDigitsConcat(parts[0], ".");
    DotsAndDigitsConcat(parts[0] + ".", tail1);
  }
}
