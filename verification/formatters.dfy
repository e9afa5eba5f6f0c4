/**
 * Display helpers of src/utils/formatters.ts: duration, phone number,
 * truncation, status label and colour tables, and the day/week/month
 * earnings rollup.
 */
module Formatters {
  import opened Wrappers
  import opened Types
  import Lists

  // ---------------------------------------------------------------------
  // Decimal rendering of integers: JavaScript's `${n}` for an integer n
  // below 10^21 in magnitude (from there on JavaScript uses exponent form)

  predicate IsDigit(c: char) {
    '0' <= c <= '9'
  }

  predicate AllDigits(s: string) {
    forall i :: 0 <= i < |s| ==> IsDigit(s[i])
  }

  function DigitChar(d: nat): (c: char)
    requires d < 10
    ensures IsDigit(c)
  {
    (('0' as int) + d) as char
  }

  function DigitValue(c: char): nat
    requires IsDigit(c)
  {
    (c as int) - ('0' as int)
  }

  /** The shortest decimal numeral of `n`. */
  function NatToString(n: nat): (s: string)
    ensures |s| >= 1 && AllDigits(s)
  {
    if n < 10 then [DigitChar(n)] else NatToString(n / 10) + [DigitChar(n % 10)]
  }

  /** The numeral of `i`, with a leading `-` when negative. */
  function IntToString(i: int): string {
    if i < 0 then "-" + NatToString(-i) else NatToString(i)
  }

  /** The number a string of digits denotes. */
  function ParseNat(s: string): nat
    requires AllDigits(s)
  {
    if s == [] then 0 else ParseNat(s[..|s| - 1]) * 10 + DigitValue(s[|s| - 1])
  }

  lemma {:induction false} ParseNatToString(n: nat)
    ensures ParseNat(NatToString(n)) == n
  {
    if n >= 10 {
      var s := NatToString(n);
      assert s[..|s| - 1] == NatToString(n / 10);
      ParseNatToString(n / 10);
    }
  }

  // ---------------------------------------------------------------------
  // formatTime

  /**
   * `formatTime`: fewer than 60 minutes print as "<m>min", longer spans as
   * "<h>h <r>min" with whole hours and the remaining minutes.
   */
  function FormatTime(minutes: int): (r: string)
    ensures minutes < 60 ==> r == IntToString(minutes) + "min"
    ensures minutes >= 60 ==>
              exists h: nat, rest: nat :: h >= 1 && rest < 60 && h * 60 + rest == minutes &&
                r == NatToString(h) + "h " + NatToString(rest) + "min"
  {
    if minutes < 60 then IntToString(minutes) + "min"
    else
      var hours := minutes / 60;
      var remainingMinutes := minutes % 60;
      NatToString(hours) + "h " + NatToString(remainingMinutes) + "min"
  }

  predicate IsHourMark(c: char) {
    c == 'h'
  }

  /** Reads back a duration printed by `FormatTime`. */
  function ParseTime(s: string): Option<int> {
    if |s| < 3 || s[|s| - 3..] != "min" then None
    else
      var body := s[..|s| - 3];
      match Lists.FindIndex(body, IsHourMark)
      case Some(k) =>
        var hours := body[..k];
        var rest := body[k..];
        if |rest| >= 2 && rest[..2] == "h " && AllDigits(hours) && AllDigits(rest[2..])
           && hours != [] && rest[2..] != []
        then Some(ParseNat(hours) * 60 + ParseNat(rest[2..]))
        else None
      case None =>
        if body != [] && body[0] == '-' && AllDigits(body[1..]) && |body| >= 2 then var n: int := ParseNat(body[1..]); Some(-n)
        else if body != [] && AllDigits(body) then Some(ParseNat(body))
        else None
  }

  /** A text whose only letter `h` is at position `k` has its first hour mark at `k`. */
  lemma HourMarkAt(body: string, k: nat)
    requires k < |body| && body[k] == 'h'
    requires forall i :: 0 <= i < k ==> body[i] != 'h'
    ensures Lists.FindIndex(body, IsHourMark) == Some(k)
  {
    assert Lists.IsFirstMatch(body, IsHourMark, k);
  }

  /** A text without the letter `h` has no hour mark. */
  lemma NoHourMark(body: string)
    requires forall i :: 0 <= i < |body| ==> body[i] != 'h'
    ensures Lists.FindIndex(body, IsHourMark) == None
  {
  }

  lemma RoundTripShort(minutes: int)
    requires minutes < 60
    ensures ParseTime(FormatTime(minutes)) == Some(minutes)
  {
    var s := FormatTime(minutes);
    var body := IntToString(minutes);
    assert s[..|s| - 3] == body && s[|s| - 3..] == "min";
    NoHourMark(body);
    if minutes < 0 {
      assert body[1..] == NatToString(-minutes);
      ParseNatToString(-minutes);
    } else {
      ParseNatToString(minutes);
    }
  }

  lemma RoundTripLong(minutes: int)
    requires minutes >= 60
    ensures ParseTime(FormatTime(minutes)) == Some(minutes)
  {
    var s := FormatTime(minutes);
    var h, rest := minutes / 60, minutes % 60;
    var hs, rs := NatToString(h), NatToString(rest);
    var body := hs + "h " + rs;
    assert s == body + "min";
    assert s[..|s| - 3] == body && s[|s| - 3..] == "min";
    HourMarkAt(body, |hs|);
    assert body[..|hs|] == hs;
    var tail := body[|hs|..];
    assert tail == "h " + rs;
    assert tail[..2] == "h " && tail[2..] == rs;
    ParseNatToString(h);
    ParseNatToString(rest);
  }

  /** No two durations print alike: the printed form reads back as the number of minutes. */
  lemma FormatTimeRoundTrip(minutes: int)
    ensures ParseTime(FormatTime(minutes)) == Some(minutes)
  {
    if minutes < 60 {
      RoundTripShort(minutes);
    } else {
      RoundTripLong(minutes);
    }
  }

  /** Distinct durations never print the same text. */
  lemma FormatTimeInjective(m1: int, m2: int)
    requires FormatTime(m1) == FormatTime(m2)
    ensures m1 == m2
  {
    FormatTimeRoundTrip(m1);
    FormatTimeRoundTrip(m2);
  }

  // ---------------------------------------------------------------------
  // formatPhoneNumber

  /** `phone.replace(/\D/g, '')`: the decimal digits of the text, in order. */
  function DigitsOf(phone: string): (d: string)
    ensures AllDigits(d)
    ensures |d| <= |phone|
    ensures forall i :: 0 <= i < |phone| && IsDigit(phone[i]) ==> phone[i] in d
    ensures Lists.IsSubsequence(d, phone)
    ensures forall c :: multiset(d)[c] == if IsDigit(c) then multiset(phone)[c] else 0
  {
    Lists.FilterIsSubsequence(phone, IsDigit);
    Lists.FilterCounts(phone, IsDigit);
    Lists.Filter(phone, IsDigit)
  }

  /**
   * `formatPhoneNumber`: a number with exactly ten digits is shown as
   * "+91 ddddd ddddd"; anything else is returned exactly as given (not its
   * digits-only form).
   */
  function FormatPhoneNumber(phone: string): (r: string)
    ensures |DigitsOf(phone)| == 10 ==>
              |r| == 15 && r[..4] == "+91 " && r[4..9] == DigitsOf(phone)[..5] &&
              r[9] == ' ' && r[10..] == DigitsOf(phone)[5..]
    ensures |DigitsOf(phone)| != 10 ==> r == phone
  {
    var cleaned := DigitsOf(phone);
    if |cleaned| == 10 then "+91 " + cleaned[..5] + " " + cleaned[5..] else phone
  }

  lemma DigitsOfCountryPrefix()
    ensures Lists.Filter("+91 ", IsDigit) == "91" && Lists.Filter(" ", IsDigit) == ""
  {
    assert "+91 "[1..] == "91 " && "91 "[1..] == "1 " && "1 "[1..] == " " && " "[1..] == "";
    assert Lists.Filter(" ", IsDigit) == "";
    assert Lists.Filter("1 ", IsDigit) == "1";
    assert Lists.Filter("91 ", IsDigit) == "91";
  }

  /** The digits of the "+91 ddddd ddddd" layout of ten digits `d` are 91 followed by `d`. */
  lemma {:induction false} PhoneLayoutDigits(d: string)
    requires |d| == 10 && AllDigits(d)
    ensures Lists.Filter("+91 " + d[..5] + " " + d[5..], IsDigit) == "91" + d
  {
    var a, b, c, e := "+91 ", d[..5], " ", d[5..];
    calc {
      Lists.Filter(a + b + c + e, IsDigit);
      { Lists.FilterAppend(a + b + c, e, IsDigit); }
      Lists.Filter(a + b + c, IsDigit) + Lists.Filter(e, IsDigit);
      { Lists.FilterAppend(a + b, c, IsDigit); }
      Lists.Filter(a + b, IsDigit) + Lists.Filter(c, IsDigit) + Lists.Filter(e, IsDigit);
      { Lists.FilterAppend(a, b, IsDigit); }
      Lists.Filter(a, IsDigit) + Lists.Filter(b, IsDigit) + Lists.Filter(c, IsDigit) + Lists.Filter(e, IsDigit);
      { DigitsOfCountryPrefix(); Lists.FilterKeepsAll(b, IsDigit); Lists.FilterKeepsAll(e, IsDigit); }
      "91" + b + "" + e;
      { assert b + e == d; }
      "91" + d;
    }
  }

  /** Formatting keeps the subscriber digits and adds the country code 91 in front of them. */
  lemma FormatPhoneKeepsDigits(phone: string)
    requires |DigitsOf(phone)| == 10
    ensures DigitsOf(FormatPhoneNumber(phone)) == "91" + DigitsOf(phone)
  {
    var d := DigitsOf(phone);
    PhoneLayoutDigits(d);
    assert FormatPhoneNumber(phone) == "+91 " + d[..5] + " " + d[5..];
  }

  /** A formatted number has twelve digits, so formatting it again leaves it as it is. */
  lemma FormatPhoneIdempotent(phone: string)
    ensures FormatPhoneNumber(FormatPhoneNumber(phone)) == FormatPhoneNumber(phone)
  {
    if |DigitsOf(phone)| == 10 {
      FormatPhoneKeepsDigits(phone);
    }
  }

  // ---------------------------------------------------------------------
  // truncateText

  /** A UTF-16 code unit: JavaScript strings are sequences of these. */
  newtype CodeUnit = x: int | 0 <= x < 0x1_0000

  /** Text as JavaScript sees it: `length` and `slice` count code units. */
  type JsText = seq<CodeUnit>

  predicate IsHighSurrogate(u: CodeUnit) {
    0xD800 <= u < 0xDC00
  }

  predicate IsLowSurrogate(u: CodeUnit) {
    0xDC00 <= u < 0xE000
  }

  /** One character in UTF-16: itself below U+10000, otherwise a surrogate pair. */
  function EncodeChar(c: char): (r: JsText)
    ensures c as int < 0x1_0000 ==> r == [c as int as CodeUnit]
    ensures c as int >= 0x1_0000 ==> |r| == 2 && IsHighSurrogate(r[0]) && IsLowSurrogate(r[1])
  {
    if c as int < 0x1_0000 then [c as int as CodeUnit]
    else
      var v := c as int - 0x1_0000;
      [(0xD800 + v / 0x400) as CodeUnit, (0xDC00 + v % 0x400) as CodeUnit]
  }

  /** The UTF-16 form of a string: never shorter, and as long exactly when every character is below U+10000. */
  function Utf16(s: string): (r: JsText)
    ensures |r| >= |s|
    ensures |r| == |s| <==> forall i :: 0 <= i < |s| ==> s[i] as int < 0x1_0000
  {
    if s == [] then []
    else
      var r := EncodeChar(s[0]) + Utf16(s[1..]);
      assert forall i :: 1 <= i < |s| ==> s[i] == s[1..][i - 1];
      r
  }

  const Ellipsis: JsText := [46, 46, 46]

  /**
   * `text.slice(0, end)`: a negative end counts back from the end of the
   * text, and the result is clamped to the text.
   */
  function SliceTo(s: JsText, end: int): (r: JsText)
    ensures 0 <= end <= |s| ==> r == s[..end]
    ensures end < 0 ==> r == s[..if |s| + end < 0 then 0 else |s| + end]
    ensures end > |s| ==> r == s
  {
    var stop := if end < 0 then (if |s| + end < 0 then 0 else |s| + end)
                else if end > |s| then |s| else end;
    s[..stop]
  }

  /**
   * `truncateText`: text within the limit is returned unchanged; longer text
   * keeps its first `maxLength - 3` code units followed by "...", so it is
   * exactly `maxLength` long when `maxLength >= 3`. Lengths are in UTF-16
   * code units, as JavaScript counts them.
   */
  function TruncateText(text: JsText, maxLength: int): (r: JsText)
    ensures |text| <= maxLength ==> r == text
    ensures |text| > maxLength >= 3 ==>
              |r| == maxLength && r[..maxLength - 3] == text[..maxLength - 3] &&
              r[maxLength - 3..] == Ellipsis
    ensures |text| > maxLength && maxLength < 3 ==>
              r == text[..if |text| + maxLength - 3 < 0 then 0 else |text| + maxLength - 3] + Ellipsis
  {
    if |text| <= maxLength then text else SliceTo(text, maxLength - 3) + Ellipsis
  }

  /** With a limit of at least 3, truncating twice is truncating once. */
  lemma TruncateIdempotent(text: JsText, maxLength: int)
    requires maxLength >= 3
    ensures TruncateText(TruncateText(text, maxLength), maxLength) == TruncateText(text, maxLength)
  {
  }

  /**
   * With a limit below 3 the negative slice end counts from the back: the
   * result never fits the limit, and for a limit of 1 or 2 it comes out
   * longer than the original text.
   */
  lemma TruncateBelowThreeOverflows(text: JsText, maxLength: int)
    requires maxLength < 3 && |text| > maxLength
    ensures |TruncateText(text, maxLength)| > maxLength
    ensures maxLength > 0 ==> |TruncateText(text, maxLength)| == |text| + maxLength
  {
  }

  /**
   * Four emoji are eight code units, so a limit of 5 truncates them to one
   * emoji and "...", although they are only four characters.
   */
  lemma TruncateCountsCodeUnits()
    ensures |Utf16("\U{1F600}\U{1F600}\U{1F600}\U{1F600}")| == 8
    ensures TruncateText(Utf16("\U{1F600}\U{1F600}\U{1F600}\U{1F600}"), 5) == Utf16("\U{1F600}") + Ellipsis
  {
    var e := Utf16("\U{1F600}");
    assert |e| == 2;
    var four := "\U{1F600}\U{1F600}\U{1F600}\U{1F600}";
    assert Utf16(four) == e + e + e + e by {
      assert four[1..][1..][1..][1..] == [];
    }
  }

  /**
   * The cut can fall inside a surrogate pair: "a" followed by an emoji and
   * four letters, with a limit of 5, keeps the emoji's high half alone.
   */
  lemma TruncateCanSplitSurrogatePair()
    ensures var r := TruncateText(Utf16("a\U{1F600}cdef"), 5);
            |r| == 5 && IsHighSurrogate(r[1]) && !IsLowSurrogate(r[2])
  {
    var t := "a\U{1F600}cdef";
    assert t[1..][1..][1..][1..][1..][1..] == [];
    assert |Utf16(t)| == 7;
  }

  // ---------------------------------------------------------------------
  // formatOrderStatus and getOrderStatusColor

  /** The label each status is displayed with. */
  function StatusLabel(s: OrderStatus): string {
    match s
    case Assigned => "New Order"
    case Accepted => "Accepted"
    case Picked => "Picked Up"
    case EnRoute => "On the Way"
    case Delivered => "Delivered"
    case Cancelled => "Cancelled"
  }

  /**
   * `formatOrderStatus`: a known status string gets its label, which always
   * differs from the raw string; any other string is shown verbatim.
   */
  function FormatOrderStatus(status: string): (r: string)
    ensures ParseStatus(status).Some? ==> r == StatusLabel(ParseStatus(status).value)
    ensures r == status <==> ParseStatus(status).None?
  {
    match ParseStatus(status)
    case Some(s) => StatusLabel(s)
    case None => status
  }

  /** The six statuses have six different labels. */
  lemma StatusLabelsDistinct(a: OrderStatus, b: OrderStatus)
    requires a != b
    ensures FormatOrderStatus(StatusName(a)) != FormatOrderStatus(StatusName(b))
  {
  }

  const DefaultStatusColor: string := "#6B7280"

  /** The badge colour of each status. */
  function StatusColor(s: OrderStatus): string {
    match s
    case Assigned => "#EA580C"
    case Accepted => "#3B82F6"
    case Picked => "#8B5CF6"
    case EnRoute => "#F59E0B"
    case Delivered => "#10B981"
    case Cancelled => "#EF4444"
  }

  /**
   * `getOrderStatusColor`: a known status gets its own colour; every other
   * string, and only those, gets the grey default.
   */
  function GetOrderStatusColor(status: string): (r: string)
    ensures ParseStatus(status).Some? ==> r == StatusColor(ParseStatus(status).value)
    ensures r == DefaultStatusColor <==> ParseStatus(status).None?
  {
    match ParseStatus(status)
    case Some(s) => StatusColor(s)
    case None => DefaultStatusColor
  }

  /** The six statuses have six different colours. */
  lemma StatusColorsDistinct(a: OrderStatus, b: OrderStatus)
    requires a != b
    ensures GetOrderStatusColor(StatusName(a)) != GetOrderStatusColor(StatusName(b))
  {
  }

  // ---------------------------------------------------------------------
  // calculateEarnings

  /** The three overlapping rollups shown on the dashboard and earnings screens. */
  datatype EarningsRollup = EarningsRollup(today: int, week: int, month: int)

  /**
   * `new Date(order.createdAt) >= start`: false for an unparsable date, since
   * every comparison with an Invalid Date is false.
   */
  predicate CreatedSince(o: Order, start: int): (r: bool)
    ensures o.createdAt.None? ==> !r
    ensures o.createdAt == Some(start) ==> r
  {
    o.createdAt.Some? && o.createdAt.value >= start
  }

  /** What one order adds to the bucket starting at `start`. */
  function Share(o: Order, start: int): int {
    if CreatedSince(o, start) then o.deliveryFee else 0
  }

  /** The delivery fees of the orders created at or after `start`. */
  function BucketSum(orders: seq<Order>, start: int): int {
    if orders == [] then 0
    else BucketSum(orders[..|orders| - 1], start) + Share(orders[|orders| - 1], start)
  }

  /**
   * `calculateEarnings`, with the current day, week (from the preceding
   * Sunday) and month starts passed in: each bucket adds up the delivery fee
   * of every order created at or after its start. There is no upper bound and
   * the order status is never looked at.
   */
  method CalculateEarnings(orders: seq<Order>, todayStart: int, weekStart: int, monthStart: int)
    returns (acc: EarningsRollup)
    ensures acc.today == BucketSum(orders, todayStart)
    ensures acc.week == BucketSum(orders, weekStart)
    ensures acc.month == BucketSum(orders, monthStart)
  {
    acc := EarningsRollup(0, 0, 0);
    for i := 0 to |orders|
      invariant acc.today == BucketSum(orders[..i], todayStart)
      invariant acc.week == BucketSum(orders[..i], weekStart)
      invariant acc.month == BucketSum(orders[..i], monthStart)
    {
      var order := orders[i];
      // `order.deliveryFee || 0`: a zero fee and a missing one both add 0.
      var earning := order.deliveryFee;
      if CreatedSince(order, todayStart) {
        acc := acc.(today := acc.today + earning);
      }
      if CreatedSince(order, weekStart) {
        acc := acc.(week := acc.week + earning);
      }
      if CreatedSince(order, monthStart) {
        acc := acc.(month := acc.month + earning);
      }
      assert orders[..i + 1][..i] == orders[..i];
    }
    assert orders[..|orders|] == orders;
  }

  predicate NonNegativeFees(orders: seq<Order>) {
    forall i :: 0 <= i < |orders| ==> orders[i].deliveryFee >= 0
  }

  /** With non-negative fees, a later bucket start never gives a larger sum. */
  lemma {:induction false} BucketSumAntitone(orders: seq<Order>, early: int, late: int)
    requires NonNegativeFees(orders)
    requires early <= late
    ensures BucketSum(orders, late) <= BucketSum(orders, early)
  {
    if orders != [] {
      BucketSumAntitone(orders[..|orders| - 1], early, late);
    }
  }

  /**
   * The day starts no earlier than its week and its month, so with
   * non-negative fees today's total never exceeds the week's or the month's.
   */
  lemma TodayWithinWeekAndMonth(orders: seq<Order>, todayStart: int, weekStart: int, monthStart: int)
    requires NonNegativeFees(orders)
    requires weekStart <= todayStart && monthStart <= todayStart
    ensures BucketSum(orders, todayStart) <= BucketSum(orders, weekStart)
    ensures BucketSum(orders, todayStart) <= BucketSum(orders, monthStart)
  {
    BucketSumAntitone(orders, weekStart, todayStart);
    BucketSumAntitone(orders, monthStart, todayStart);
  }

  /**
   * The week is not contained in the month: when the week began in the
   * previous month, an order from those days counts for the week only.
   */
  lemma WeekCanExceedMonth()
    ensures var o := Order("o1", "1", Delivered, "", "", [], 150, 50, Some(5), CashPayment);
            BucketSum([o], 0) > BucketSum([o], 8)
  {
  }

  /** An order created exactly at a bucket's start is counted in it. */
  lemma BucketStartInclusive(o: Order)
    requires o.createdAt.Some?
    ensures BucketSum([o], o.createdAt.value) == o.deliveryFee
  {
    assert [o][..0] == [];
  }

  /** The rollup reads only creation times and fees, never statuses or anything else. */
  lemma {:induction false} BucketSumReadsOnlyTimesAndFees(a: seq<Order>, b: seq<Order>, start: int)
    requires |a| == |b|
    requires forall i :: 0 <= i < |a| ==> a[i].createdAt == b[i].createdAt && a[i].deliveryFee == b[i].deliveryFee
    ensures BucketSum(a, start) == BucketSum(b, start)
  {
    if a != [] {
      BucketSumReadsOnlyTimesAndFees(a[..|a| - 1], b[..|b| - 1], start);
    }
  }

  /** The total of all delivery fees. */
  function FeeTotal(orders: seq<Order>): int {
    if orders == [] then 0 else FeeTotal(orders[..|orders| - 1]) + orders[|orders| - 1].deliveryFee
  }

  /**
   * Orders created on or after `start` all count: the bucket is their whole
   * fee total (for one order of fee 50 created now, today = week = month = 50).
   */
  lemma {:induction false} AllRecentOrdersCount(orders: seq<Order>, start: int)
    requires forall i :: 0 <= i < |orders| ==> CreatedSince(orders[i], start)
    ensures BucketSum(orders, start) == FeeTotal(orders)
  {
    if orders != [] {
      AllRecentOrdersCount(orders[..|orders| - 1], start);
    }
  }
}
