/** Decimal printing and parsing of uint64 (strconv.FormatUint and strconv.ParseUint in base 10),
    and the "major:minor" key that the mount index and the cgroup v1 aggregation both print. */
module Decimal {
  import opened Prelude

  predicate IsDigit(c: char) {
    '0' <= c <= '9'
  }

  predicate AllDigits(s: string) {
    forall i :: 0 <= i < |s| ==> IsDigit(s[i])
  }

  function DigitValue(c: char): nat
    requires IsDigit(c)
  {
    c as int - '0' as int
  }

  function FormatUint(n: nat): string {
    var digit := ['0' + (n % 10) as char];
    if n < 10 then digit else FormatUint(n / 10) + digit
  }

  /** The number a digit string denotes, most significant digit first. */
  function Value(s: string): nat
    requires AllDigits(s)
  {
    if s == "" then 0 else 10 * Value(Front(s)) + DigitValue(Last(s))
  }

  /** strconv.ParseUint(s, 10, 64): any syntax or range error is None. */
  function ParseUint(s: string): Option<U64> {
    if s != "" && AllDigits(s) && Value(s) < 0x1_0000_0000_0000_0000 then Some(Value(s)) else None
  }

  /** The form FormatUint prints: digits only, without a leading zero unless the number is zero. */
  predicate Canonical(s: string) {
    s != "" && AllDigits(s) && (|s| > 1 ==> s[0] != '0')
  }

  /** Printing is exact and canonical. */
  lemma {:induction false} FormatIsCanonical(n: nat)
    ensures Canonical(FormatUint(n)) && Value(FormatUint(n)) == n
    ensures n > 0 ==> FormatUint(n)[0] != '0'
  {
    if n >= 10 {
      FormatIsCanonical(n / 10);
      FrontOfAppend(FormatUint(n / 10), '0' + (n % 10) as char);
    } else {
      assert Front(FormatUint(n)) == "";
    }
  }

  /** Every canonical string is the printed form of its value: printing is onto the canonical strings. */
  lemma {:induction false} CanonicalIsFormat(s: string)
    requires Canonical(s)
    ensures FormatUint(Value(s)) == s
    ensures s != "0" ==> Value(s) > 0
  {
    assert s == Front(s) + [Last(s)];
    if |s| > 1 {
      CanonicalIsFormat(Front(s));
      assert Value(s) / 10 == Value(Front(s));
    } else {
      assert Value(Front(s)) == 0;
    }
  }

  lemma ParseInvertsFormat(n: U64)
    ensures ParseUint(FormatUint(n)) == Some(n)
  {
    FormatIsCanonical(n);
  }

  /** The position of the first c in s, or |s|. */
  function IndexOf(s: string, c: char): (i: nat)
    ensures i <= |s|
    ensures forall j :: 0 <= j < i ==> s[j] != c
    ensures i < |s| ==> s[i] == c
  {
    if s == "" || s[0] == c then 0 else 1 + IndexOf(s[1..], c)
  }

  /** deviceKey: the map key of a block device. */
  function DeviceKey(major: U64, minor: U64): string {
    FormatUint(major) + ":" + FormatUint(minor)
  }

  /** Reads a device key back; None for anything deviceKey cannot have printed. */
  function ParseDeviceKey(s: string): Option<(U64, U64)> {
    var colon := IndexOf(s, ':');
    if colon == |s| then None
    else
      var left, right := s[..colon], s[colon + 1..];
      if Canonical(left) && Canonical(right) && ParseUint(left).Some? && ParseUint(right).Some?
      then Some((ParseUint(left).value, ParseUint(right).value))
      else None
  }

  /** Parsing a printed key gives the device back. */
  lemma ParseInvertsDeviceKey(major: U64, minor: U64)
    ensures ParseDeviceKey(DeviceKey(major, minor)) == Some((major, minor))
  {
    var left, right := FormatUint(major), FormatUint(minor);
    var s := left + ":" + right;
    ParseInvertsFormat(major);
    ParseInvertsFormat(minor);
    FormatIsCanonical(major);
    FormatIsCanonical(minor);
    assert forall j :: 0 <= j < |left| ==> s[j] == left[j] && IsDigit(left[j]);
    assert s[|left|] == ':';
    assert IndexOf(s, ':') == |left|;
    assert s[..|left|] == left && s[|left| + 1..] == right;
  }

  /** Only the printed key of a device parses to that device. */
  lemma DeviceKeyInvertsParse(s: string, major: U64, minor: U64)
    requires ParseDeviceKey(s) == Some((major, minor))
    ensures s == DeviceKey(major, minor)
  {
    var colon := IndexOf(s, ':');
    CanonicalIsFormat(s[..colon]);
    CanonicalIsFormat(s[colon + 1..]);
    assert s == s[..colon] + [s[colon]] + s[colon + 1..];
  }

  /** A string parses to (major, minor) exactly when it is the key of that device. */
  lemma DeviceKeyParses(s: string, major: U64, minor: U64)
    ensures ParseDeviceKey(s) == Some((major, minor)) <==> s == DeviceKey(major, minor)
  {
    ParseInvertsDeviceKey(major, minor);
    if ParseDeviceKey(s) == Some((major, minor)) {
      DeviceKeyInvertsParse(s, major, minor);
    }
  }

  /** Distinct devices never share a key. */
  lemma DeviceKeyInjective(a: U64, b: U64, c: U64, d: U64)
    ensures DeviceKey(a, b) == DeviceKey(c, d) <==> a == c && b == d
  {
    DeviceKeyParses(DeviceKey(a, b), a, b);
    DeviceKeyParses(DeviceKey(a, b), c, d);
  }
}
