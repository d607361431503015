/** The time window of the service map: which endpoint texts are accepted and what they mean. */
module ServiceMapWindow {
  import opened Prelude
  import opened Text

  const NANOS_PER_SECOND := 1_000_000_000

  /** The seconds of a unit; 0 for a character that is no unit. */
  function Multiplier(unit: char): nat {
    match unit
    case 's' => 1
    case 'm' => 60
    case 'h' => 60 * 60
    case 'd' => 24 * 60 * 60
    case 'w' => 7 * 24 * 60 * 60
    case _ => 0
  }

  /** The seconds of a relative text: a minus sign, digits and a unit, positive and within int64. */
  function RelativeSeconds(value: string): Option<int64> {
    if |value| < 3 || value[0] != '-' || !AllDigits(value[1..|value| - 1]) then None
    else
      var seconds := DigitsValue(value[1..|value| - 1]) * Multiplier(value[|value| - 1]);
      if 0 < seconds <= INT64_MAX then Some(seconds) else None
  }

  function AfterNow(text: string): string {
    if StartsWith(text, "now-") then text[3..] else text
  }

  /** A trimmed lower-case text as an endpoint. */
  function TextEndpoint(text: string, now: int64): Option<int64> {
    var relative := AfterNow(text);
    if text == "now" then Some(now)
    else if relative != "" && relative[0] == '-' then
      match RelativeSeconds(relative)
      case Some(offset) => if FitsInt64(now - offset) then Some(now - offset) else None
      case None => None
    else if text != "" && AllDigits(text) && FitsInt64(DigitsValue(text)) then Some(DigitsValue(text))
    else None
  }

  function Endpoint(input: string, now: int64): Option<int64> {
    TextEndpoint(Lower(Trim(input)), now)
  }

  datatype Window = Window(start: int64, end: int64)

  /** A second that TIMESTAMP_NS can hold. */
  predicate InTimestampRange(seconds: int) {
    FitsInt64(seconds * NANOS_PER_SECOND)
  }

  function ResolvedWindow(from: string, to: string, now: int64): Option<Window> {
    match (Endpoint(from, now), Endpoint(to, now))
    case (Some(start), Some(end)) =>
      if start <= end && InTimestampRange(start) && InTimestampRange(end) then Some(Window(start, end)) else None
    case _ => None
  }

  // ----- the parser -----

  lemma {:induction false} PrefixValue(digits: string, i: nat)
    requires i <= |digits| && AllDigits(digits)
    ensures DigitsValue(digits[..i]) <= DigitsValue(digits)
  {
    if i < |digits| {
      PrefixValue(digits[..|digits| - 1], i);
      assert digits[..|digits| - 1][..i] == digits[..i];
    } else {
      assert digits[..i] == digits;
    }
  }

  /** Every intermediate value is an int64; None is a digit that is none, or a value that does not fit. */
  method ParseMagnitude(digits: string) returns (magnitude: Option<int64>)
    ensures magnitude ==
            if AllDigits(digits) && DigitsValue(digits) <= INT64_MAX then Some(DigitsValue(digits)) else None
  {
    var value: int64 := 0;
    for i := 0 to |digits|
      invariant AllDigits(digits[..i]) && value == DigitsValue(digits[..i])
    {
      if !IsDigit(digits[i]) {
        return None;
      }
      var digit := DigitValue(digits[i]);
      assert digits[..i + 1][..i] == digits[..i];
      if value > (INT64_MAX - digit) / 10 {
        if AllDigits(digits) {
          PrefixValue(digits, i + 1);
        }
        return None;
      }
      value := value * 10 + digit;
    }
    assert digits[..|digits|] == digits;
    magnitude := Some(value);
  }

  lemma TooLarge(value: string, multiplier: nat)
    requires |value| >= 3 && multiplier == Multiplier(value[|value| - 1]) && multiplier > 0
    requires AllDigits(value[1..|value| - 1]) ==> DigitsValue(value[1..|value| - 1]) > INT64_MAX
    ensures RelativeSeconds(value).None?
  {
    if AllDigits(value[1..|value| - 1]) {
      MulAtLeast(DigitsValue(value[1..|value| - 1]), multiplier);
    }
  }

  lemma QuotientBound(seconds: int64, multiplier: nat)
    requires seconds >= 0 && multiplier in {1, 60, 3600, 86400, 604800}
    ensures seconds <= INT64_MAX / multiplier <==> seconds * multiplier <= INT64_MAX
    ensures seconds * multiplier == 0 <==> seconds == 0
  {
  }

  method ParseRelativeDurationSeconds(value: string) returns (r: Option<int64>)
    ensures r == RelativeSeconds(value)
  {
    if |value| < 3 || value[0] != '-' {
      return None;
    }
    var multiplier := Multiplier(value[|value| - 1]);
    if multiplier == 0 {
      return None;
    }
    var magnitude := ParseMagnitude(value[1..|value| - 1]);
    if magnitude.None? {
      TooLarge(value, multiplier);
      return None;
    }
    var seconds := magnitude.value;
    QuotientBound(seconds, multiplier);
    if seconds == 0 || seconds > INT64_MAX / multiplier {
      return None;
    }
    var product: int64 := seconds * multiplier;
    r := Some(product);
  }

  method ResolveDatadogServiceMapEndpoint(input: string, now: int64) returns (r: Option<int64>)
    ensures r == Endpoint(input, now)
  {
    var normalized := Lower(Trim(input));
    if normalized == "now" {
      return Some(now);
    }
    var relative := normalized;
    if StartsWith(relative, "now-") {
      relative := relative[3..];
    }
    if relative != "" && relative[0] == '-' {
      var offset := ParseRelativeDurationSeconds(relative);
      if offset.None? {
        return None;
      }
      if now < INT64_MIN + offset.value {
        return None;
      }
      var result: int64 := now - offset.value;
      return Some(result);
    }
    if normalized == "" {
      return None;
    }
    var first := if normalized[0] == '-' then 1 else 0;
    if first == |normalized| {
      return None;
    }
    for i := first to |normalized|
      invariant forall k :: first <= k < i ==> IsDigit(normalized[k])
    {
      if !IsDigit(normalized[i]) {
        return None;
      }
    }
    StollOfIntegerText(normalized);
    var parsed := Stoll(normalized);
    if parsed.None? {
      return None;
    }
    r := Some(parsed.value.value);
  }

  method ResolveDatadogServiceMapWindow(from: string, to: string, now: int64) returns (r: Option<Window>)
    ensures r == ResolvedWindow(from, to, now)
  {
    var start := ResolveDatadogServiceMapEndpoint(from, now);
    if start.None? {
      return None;
    }
    var end := ResolveDatadogServiceMapEndpoint(to, now);
    if end.None? || start.value > end.value {
      return None;
    }
    var minSeconds, maxSeconds := TruncDiv(INT64_MIN, NANOS_PER_SECOND), TruncDiv(INT64_MAX, NANOS_PER_SECOND);
    if start.value < minSeconds || start.value > maxSeconds || end.value < minSeconds || end.value > maxSeconds {
      return None;
    }
    r := Some(Window(start.value, end.value));
  }

  // ----- the language of endpoint texts -----

  /** So many of the unit, in seconds: a minute has 60, an hour 60 minutes, a day 24 hours, a week 7 days. */
  predicate Lasts(count: nat, unit: char, seconds: int) {
    || (unit == 's' && seconds == count)
    || (unit == 'm' && seconds == 60 * count)
    || (unit == 'h' && seconds == 60 * (60 * count))
    || (unit == 'd' && seconds == 24 * (60 * (60 * count)))
    || (unit == 'w' && seconds == 7 * (24 * (60 * (60 * count))))
  }

  /** `digits` `unit` is a period of a positive number of seconds within int64. */
  predicate IsPeriod(digits: string, unit: char, seconds: int) {
    digits != "" && AllDigits(digits) && Lasts(DigitsValue(digits), unit, seconds) && 0 < seconds <= INT64_MAX
  }

  lemma MultiplierLasts(count: nat, unit: char, seconds: int)
    requires seconds > 0
    ensures Lasts(count, unit, seconds) <==> seconds == count * Multiplier(unit)
  {
  }

  ghost predicate IsAgo(text: string, seconds: int) {
    exists digits: string, unit: char ::
      IsPeriod(digits, unit, seconds) && (text == "-" + digits + [unit] || text == "now-" + digits + [unit])
  }

  /** The texts with a meaning, and their meaning at `now`. */
  ghost predicate Means(text: string, now: int64, value: int) {
    || (text == "now" && value == now)
    || (text != "" && AllDigits(text) && value == DigitsValue(text) && FitsInt64(value))
    || (IsAgo(text, now - value) && FitsInt64(value))
  }

  lemma PeriodText(digits: string, unit: char, seconds: int)
    requires IsPeriod(digits, unit, seconds)
    ensures RelativeSeconds("-" + digits + [unit]) == Some(seconds)
    ensures AfterNow("-" + digits + [unit]) == "-" + digits + [unit] == AfterNow("now-" + digits + [unit])
  {
    var text := "-" + digits + [unit];
    assert text[1..|text| - 1] == digits && text[|text| - 1] == unit;
    MultiplierLasts(DigitsValue(digits), unit, seconds);
    var long := "now-" + digits + [unit];
    assert long[..4] == "now-" && long[3..] == text;
    assert text[0] == '-';
  }

  lemma RelativeIsAgo(text: string, seconds: int)
    requires RelativeSeconds(AfterNow(text)) == Some(seconds)
    ensures IsAgo(text, seconds)
  {
    var relative := AfterNow(text);
    var digits, unit := relative[1..|relative| - 1], relative[|relative| - 1];
    MultiplierLasts(DigitsValue(digits), unit, seconds);
    assert IsPeriod(digits, unit, seconds) && relative == "-" + digits + [unit];
    if StartsWith(text, "now-") {
      assert text[4..] == relative[1..] == digits + [unit];
      assert text == text[..4] + text[4..];
      assert text == "now-" + digits + [unit];
    }
  }

  lemma RelativeText(text: string, now: int64, seconds: int)
    requires text != "now" && AfterNow(text) != "" && AfterNow(text)[0] == '-'
    requires RelativeSeconds(AfterNow(text)) == Some(seconds)
    ensures TextEndpoint(text, now) == if FitsInt64(now - seconds) then Some(now - seconds) else None
  {
  }

  lemma PeriodIsRelative(text: string, digits: string, unit: char, seconds: int)
    requires IsPeriod(digits, unit, seconds)
    requires text == "-" + digits + [unit] || text == "now-" + digits + [unit]
    ensures text != "now" && AfterNow(text) == "-" + digits + [unit]
    ensures RelativeSeconds(AfterNow(text)) == Some(seconds)
  {
    PeriodText(digits, unit, seconds);
    assert |text| > 3 || text[0] == '-';
  }

  lemma AgoIsRelative(text: string, now: int64, seconds: int)
    requires IsAgo(text, seconds)
    ensures TextEndpoint(text, now) == if FitsInt64(now - seconds) then Some(now - seconds) else None
  {
    var digits: string, unit: char :|
      IsPeriod(digits, unit, seconds) && (text == "-" + digits + [unit] || text == "now-" + digits + [unit]);
    PeriodIsRelative(text, digits, unit, seconds);
    RelativeText(text, now, seconds);
  }

  lemma TextIsGrammar(text: string, now: int64, value: int)
    ensures TextEndpoint(text, now) == Some(value) <==> Means(text, now, value)
  {
    if IsAgo(text, now - value) {
      AgoIsRelative(text, now, now - value);
    }
    var relative := AfterNow(text);
    if TextEndpoint(text, now) == Some(value) && text != "now" && relative != "" && relative[0] == '-' {
      RelativeIsAgo(text, now - value);
    }
  }

  /**
   The texts accepted are exactly those of the grammar: "now"; digits; or digits and a unit after "-" or
   "now-", in any letter case and with white space around. An accepted text has its mathematical meaning.
   */
  lemma EndpointIsGrammar(input: string, now: int64, value: int)
    ensures Endpoint(input, now) == Some(value) <==> Means(Lower(Trim(input)), now, value)
  {
    TextIsGrammar(Lower(Trim(input)), now, value);
  }

  /** A window is accepted exactly when both texts have a meaning, in order and within nanoseconds of int64. */
  lemma WindowIsGrammar(from: string, to: string, now: int64, start: int64, end: int64)
    ensures ResolvedWindow(from, to, now) == Some(Window(start, end)) <==>
            && Means(Lower(Trim(from)), now, start) && Means(Lower(Trim(to)), now, end)
            && start <= end && FitsInt64(start * 1_000_000_000) && FitsInt64(end * 1_000_000_000)
  {
    EndpointIsGrammar(from, now, start);
    EndpointIsGrammar(to, now, end);
  }

  /** A minus sign and digits are never epoch seconds, although the digit check would allow the sign. */
  lemma NegativeEpochIsRefused(digits: string, now: int64)
    requires digits != "" && AllDigits(digits)
    ensures Endpoint("-" + digits, now) == None
  {
    var text := "-" + digits;
    assert IsDigit(text[|text| - 1]);
    TrimIsIdentity(text);
    assert forall i :: 0 <= i < |text| ==> text[i] < 'A';
    assert Lower(text) == text;
    assert text[0] == '-' && "now-"[0] == 'n';
    assert AfterNow(text) == text;
  }
}
