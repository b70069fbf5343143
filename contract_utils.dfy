/**
  The pure helpers of the client's contract utilities: the 48-hour on-time
  rule over Unix-second timestamps and the abbreviated display of an address.
  Status decoding lives in module OrderStatus.
 */
module ContractUtils {

  function Min(a: int, b: int): int { if a <= b then a else b }

  function Max(a: int, b: int): int { if a <= b then b else a }

  function Abs(x: int): nat { if x < 0 then -x else x }

  // ---------------------------------------------------------------------
  // JavaScript String.prototype.substring
  // ---------------------------------------------------------------------

  /** An index argument of `substring`, clamped into `[0, len]`. */
  function ClampIndex(i: int, len: nat): (k: nat)
    ensures k <= len
    ensures 0 <= i <= len ==> k == i
  {
    if i < 0 then 0 else if i > len then len else i
  }

  /**
    `s.substring(start, end)`: both indices are clamped into the string and,
    when the first exceeds the second, the two are swapped.
   */
  function Substring(s: string, start: int, end: int): (r: string)
    ensures |r| <= |s|
    ensures 0 <= start <= end <= |s| ==> r == s[start..end]
    ensures 0 <= end <= start <= |s| ==> r == s[end..start]
    ensures r == s[ClampIndex(Min(start, end), |s|)..ClampIndex(Max(start, end), |s|)]
  {
    var a := ClampIndex(start, |s|);
    var b := ClampIndex(end, |s|);
    s[Min(a, b)..Max(a, b)]
  }

  /** `s.substring(start)`: the end defaults to the length of the string. */
  function SubstringFrom(s: string, start: int): (r: string)
    ensures 0 <= start <= |s| ==> r == s[start..]
    ensures start < 0 ==> r == s
    ensures start > |s| ==> r == []
  {
    Substring(s, start, |s|)
  }

  // ---------------------------------------------------------------------
  // formatAddress
  // ---------------------------------------------------------------------

  const Ellipsis: string := "..."

  /**
    `formatAddress`: empty for an empty address, otherwise the first six
    characters, "...", and the last four. When the address is shorter,
    `substring` clamps: the head is the whole address when it has at most
    six characters, and the tail is the whole address when it has at most
    four (a negative start becomes 0).
   */
  function FormatAddress(address: string): (r: string)
    ensures address == [] ==> r == []
    ensures address != [] ==>
              r == address[..Min(6, |address|)] + Ellipsis + address[|address| - Min(4, |address|)..]
  {
    if address == [] then []
    else Substring(address, 0, 6) + Ellipsis + SubstringFrom(address, |address| - 4)
  }

  /** The length of an abbreviation: head, three dots, tail. */
  lemma FormatAddressLength(address: string)
    ensures |FormatAddress(address)| ==
              if address == [] then 0 else Min(6, |address|) + 3 + Min(4, |address|)
  {
  }

  /**
    An address of at least ten characters (an Ethereum address has 42) is
    shown as exactly 13 characters: its first six, "...", its last four,
    with the head and tail taken from disjoint parts of the address.
   */
  lemma FormatAddressLong(address: string)
    requires |address| >= 10
    ensures |FormatAddress(address)| == 13
    ensures FormatAddress(address)[..6] == address[..6]
    ensures FormatAddress(address)[6..9] == Ellipsis
    ensures FormatAddress(address)[9..] == address[|address| - 4..]
  {
    var r := FormatAddress(address);
    assert r == address[..6] + Ellipsis + address[|address| - 4..];
  }

  /** The abbreviation is empty exactly when the address is. */
  lemma FormatAddressEmptyIff(address: string)
    ensures FormatAddress(address) == [] <==> address == []
  {
    if address != [] {
      assert FormatAddress(address)[Min(6, |address|)] == '.';
    }
  }

  // ---------------------------------------------------------------------
  // isDeliveryOnTime
  // ---------------------------------------------------------------------

  /** The largest magnitude, in milliseconds, that a JavaScript Date can hold. */
  const MaxDateMillis: int := 8_640_000_000_000_000

  /** `new Date(t * 1000)` is a valid date; outside this range it is NaN. */
  predicate DateValid(t: int)
  {
    -MaxDateMillis <= t * 1000 <= MaxDateMillis
  }

  const MillisPerHour: int := 1000 * 60 * 60

  /** The allowance of the on-time rule, in whole hours. */
  const MaxHours: int := 48

  /** The first time difference, in seconds, that is no longer on time (49 hours). */
  const LateAfterSeconds: int := 176_400

  /**
    `isDeliveryOnTime(purchaseTime, deliveryTime)`: false when either time is
    0 (unset); otherwise the two Unix-second timestamps become Dates, and the
    delivery is on time when their distance in whole hours (rounded down) is
    at most 48. An out-of-range Date makes the difference NaN, and a NaN
    comparison is false.
   */
  function IsDeliveryOnTime(purchaseTime: int, deliveryTime: int): (onTime: bool)
    ensures onTime <==>
              && purchaseTime != 0 && deliveryTime != 0
              && DateValid(purchaseTime) && DateValid(deliveryTime)
              && Abs(deliveryTime - purchaseTime) < LateAfterSeconds
  {
    if purchaseTime == 0 || deliveryTime == 0 then false
    else if !DateValid(purchaseTime) || !DateValid(deliveryTime) then false
    else
      var timeDiff := Abs(deliveryTime * 1000 - purchaseTime * 1000);
      var hoursDiff := timeDiff / MillisPerHour;
      HoursWithinAllowance(Abs(deliveryTime - purchaseTime));
      hoursDiff <= MaxHours
  }

  /** Whole hours of a difference in seconds, via milliseconds, stay within 48 iff under 49 hours. */
  lemma HoursWithinAllowance(seconds: nat)
    ensures (seconds * 1000) / MillisPerHour <= MaxHours <==> seconds < LateAfterSeconds
  {
    var q := seconds / 3600;
    var m := seconds % 3600;
    assert seconds * 1000 == q * MillisPerHour + m * 1000;
    assert 0 <= m * 1000 < MillisPerHour;
    assert (seconds * 1000) / MillisPerHour == q;
  }

  /** An unset time on either side is never on time. */
  lemma UnsetIsNeverOnTime(t: int)
    ensures !IsDeliveryOnTime(0, t) && !IsDeliveryOnTime(t, 0)
  {
  }

  /** The rule uses the absolute difference, so the argument order does not matter. */
  lemma OnTimeSymmetric(p: int, d: int)
    ensures IsDeliveryOnTime(p, d) == IsDeliveryOnTime(d, p)
  {
    assert Abs(d - p) == Abs(p - d);
  }

  /** A delivery at the purchase instant itself is on time (for any set, representable time). */
  lemma SameInstantIsOnTime(t: int)
    requires t != 0 && DateValid(t)
    ensures IsDeliveryOnTime(t, t)
  {
  }

  /** Exactly 48 hours apart is still on time; 49 hours apart is late. */
  lemma OnTimeBoundary(p: int)
    requires p > 0 && DateValid(p + LateAfterSeconds)
    ensures IsDeliveryOnTime(p, p + LateAfterSeconds - 1)
    ensures !IsDeliveryOnTime(p, p + LateAfterSeconds)
  {
  }
}
