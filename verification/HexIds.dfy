/**
 OTLP hexadecimal identifiers: the parser that splits an id of up to 128 bits into a low 64-bit
 word and the hexadecimal text of the high word, and the text key spans are grouped by.
 */
module HexIds {
  import opened Prelude
  import opened Text

  /** Datadog's form of a trace id. */
  datatype SplitId = SplitId(low: uint64, highHex: string)

  /** `x >> 60` is division by this. */
  const TOP_NIBBLE: nat := 0x1000_0000_0000_0000

  predicate IsHexChar(c: char) {
    IsDigit(c) || 'a' <= c <= 'f' || 'A' <= c <= 'F'
  }

  function HexDigitValue(c: char): (d: nat)
    requires IsHexChar(c)
    ensures d < 16
  {
    if IsDigit(c) then c as int - '0' as int
    else if 'a' <= c <= 'f' then c as int - 'a' as int + 10
    else c as int - 'A' as int + 10
  }

  function HexChar(d: nat): (c: char)
    requires d < 16
    ensures IsHexChar(c) && HexDigitValue(c) == d
    ensures !('A' <= c <= 'F')
  {
    if d < 10 then ('0' as int + d) as char else ('a' as int + (d - 10)) as char
  }

  predicate AllHex(s: string) {
    forall i :: 0 <= i < |s| ==> IsHexChar(s[i])
  }

  /** The number a hexadecimal digit sequence denotes. */
  function HexValue(s: string): nat
    requires AllHex(s)
  {
    if s == "" then 0 else HexValue(s[..|s| - 1]) * 16 + HexDigitValue(s[|s| - 1])
  }

  function Pow16(n: nat): (p: nat)
    ensures p > 0
  {
    if n == 0 then 1 else 16 * Pow16(n - 1)
  }

  lemma {:induction false} HexValueBound(s: string)
    requires AllHex(s)
    ensures HexValue(s) < Pow16(|s|)
  {
    if s != "" {
      HexValueBound(s[..|s| - 1]);
    }
  }

  lemma {:induction false} Pow16Monotone(m: nat, n: nat)
    requires m <= n
    ensures Pow16(m) <= Pow16(n)
  {
    if m < n {
      Pow16Monotone(m, n - 1);
    }
  }

  lemma Pow16Words()
    ensures Pow16(15) == TOP_NIBBLE
    ensures Pow16(16) == TWO_64
    ensures Pow16(31) == TOP_NIBBLE * TWO_64
    ensures Pow16(32) == TWO_64 * TWO_64
  {
    assert Pow16(8) == 0x1_0000_0000;
    assert Pow16(15) == TOP_NIBBLE;
    assert Pow16(16) == TWO_64;
    assert Pow16(24) == 0x1_0000_0000 * TWO_64;
    assert Pow16(31) == TOP_NIBBLE * TWO_64;
  }

  lemma Swap16(x: int, p: int)
    ensures x * (16 * p) == 16 * (x * p)
  {
  }

  lemma {:induction false} HexValueAppend(a: string, b: string)
    requires AllHex(a) && AllHex(b)
    ensures AllHex(a + b) && HexValue(a + b) == HexValue(a) * Pow16(|b|) + HexValue(b)
  {
    if b == "" {
      assert a + b == a;
    } else {
      var init, last := b[..|b| - 1], b[|b| - 1];
      HexValueAppend(a, init);
      var s := a + b;
      assert s[..|s| - 1] == a + init && s[|s| - 1] == last;
      assert HexValue(a) * Pow16(|b|) == 16 * (HexValue(a) * Pow16(|init|)) by {
        Swap16(HexValue(a), Pow16(|init|));
      }
    }
  }

  // ----- the shortest form -----

  /** Shortest lower-case hexadecimal form; empty for zero. */
  function ShortHex(n: nat): string {
    if n == 0 then "" else ShortHex(n / 16) + [HexChar(n % 16)]
  }

  /** Lower-case hexadecimal digits with no leading zero. */
  predicate IsShortHex(s: string) {
    && AllHex(s)
    && (forall i :: 0 <= i < |s| ==> !('A' <= s[i] <= 'F'))
    && (s != "" ==> s[0] != '0')
  }

  lemma {:induction false} ShortHexDenotes(n: nat)
    ensures IsShortHex(ShortHex(n)) && HexValue(ShortHex(n)) == n
    ensures ShortHex(n) == "" <==> n == 0
  {
    if n != 0 {
      ShortHexDenotes(n / 16);
      var s := ShortHex(n);
      assert s[..|s| - 1] == ShortHex(n / 16);
      if n / 16 == 0 {
        assert s[0] == HexChar(n);
      } else {
        assert s[0] == ShortHex(n / 16)[0];
      }
    }
  }

  /** No other lower-case text without a leading zero denotes the number. */
  lemma {:induction false} ShortHexUnique(s: string)
    requires IsShortHex(s)
    ensures ShortHex(HexValue(s)) == s
  {
    if s != "" {
      var init, last := s[..|s| - 1], s[|s| - 1];
      ShortHexUnique(init);
      assert HexValue(s) / 16 == HexValue(init) && HexValue(s) % 16 == HexDigitValue(last);
      assert HexChar(HexDigitValue(last)) == last;
      assert init == "" ==> s[0] == last;
      assert init != "" ==> HexValue(init) != 0 by {
        ShortHexDenotes(HexValue(init));
      }
      assert s == init + [last];
    }
  }

  lemma {:induction false} ShortHexLength(n: nat, k: nat)
    requires n < Pow16(k)
    ensures |ShortHex(n)| <= k
  {
    if n != 0 {
      if k == 0 {
        assert false;
      }
      ShortHexLength(n / 16, k - 1);
    }
  }

  /** `k` digits, padded with leading zeros. */
  function PadHex(n: nat, k: nat): (s: string)
    ensures |s| == k && AllHex(s)
  {
    if k == 0 then "" else PadHex(n / 16, k - 1) + [HexChar(n % 16)]
  }

  lemma PadHexStep(n: nat, k: nat)
    requires k > 0 && HexValue(PadHex(n / 16, k - 1)) == n / 16
    ensures HexValue(PadHex(n, k)) == n
  {
    var init, s := PadHex(n / 16, k - 1), PadHex(n, k);
    assert s[..|s| - 1] == init && s[|s| - 1] == HexChar(n % 16);
  }

  lemma QuotientBelow(n: nat, p: nat)
    requires n < 16 * p
    ensures n / 16 < p
  {
  }

  lemma {:induction false} PadHexDenotes(n: nat, k: nat)
    requires n < Pow16(k)
    ensures HexValue(PadHex(n, k)) == n
  {
    if k != 0 {
      QuotientBelow(n, Pow16(k - 1));
      PadHexDenotes(n / 16, k - 1);
      PadHexStep(n, k);
    }
  }

  // ----- the parser -----

  /** The digits that are left after trimming and removing one optional prefix. */
  function IdDigits(text: string): string {
    var trimmed := Trim(text);
    if |trimmed| >= 2 && trimmed[0] == '0' && (trimmed[1] == 'x' || trimmed[1] == 'X') then trimmed[2..]
    else trimmed
  }

  predicate IsHexId(text: string) {
    1 <= |IdDigits(text)| <= 32 && AllHex(IdDigits(text))
  }

  /** The 128-bit number an accepted text denotes. */
  function IdValue(text: string): nat
    requires IsHexId(text)
  {
    HexValue(IdDigits(text))
  }

  function Split(n: nat): SplitId {
    SplitId(n % TWO_64, ShortHex(n / TWO_64))
  }

  /** The 128-bit number a split id stands for. */
  function Joined(id: SplitId): nat
    requires AllHex(id.highHex)
  {
    HexValue(id.highHex) * TWO_64 + id.low
  }

  /** Fewer than 32 digits leave the top nibble of the high word clear. */
  lemma PrefixIsSmall(s: string, i: nat)
    requires i < |s| <= 32 && AllHex(s[..i])
    ensures HexValue(s[..i]) < TOP_NIBBLE * TWO_64
  {
    HexValueBound(s[..i]);
    Pow16Monotone(i, 31);
    Pow16Words();
  }

  /** One digit enters: no bit leaves the high word. */
  lemma ShiftInDigit(high: uint64, low: uint64, digit: nat)
    requires digit < 16 && high * TWO_64 + low < TOP_NIBBLE * TWO_64
    ensures var high' := high * 16 % TWO_64 + low / TOP_NIBBLE;
            var low' := low * 16 % TWO_64 + digit;
            high' < TWO_64 && low' < TWO_64
            && high' * TWO_64 + low' == (high * TWO_64 + low) * 16 + digit
  {
    var top, rest := low / TOP_NIBBLE, low % TOP_NIBBLE;
    QuotientIs(low * 16, TWO_64, top, rest * 16);
    QuotientIs(high * 16, TWO_64, 0, high * 16);
  }

  /** The value of a prefix that is one digit longer. */
  lemma ReadDigit(s: string, i: nat)
    requires i < |s| && AllHex(s[..i]) && IsHexChar(s[i])
    ensures AllHex(s[..i + 1]) && HexValue(s[..i + 1]) == HexValue(s[..i]) * 16 + HexDigitValue(s[i])
  {
    assert s[..i + 1][..i] == s[..i];
  }

  /** `n` shifted right by `k` hexadecimal digits. */
  function Shifted(n: nat, k: nat): nat {
    if k == 0 then n else Shifted(n / 16, k - 1)
  }

  lemma {:induction false} ShiftedOnce(n: nat, k: nat)
    ensures Shifted(n, k + 1) == Shifted(n, k) / 16
  {
    if k > 0 {
      ShiftedOnce(n / 16, k - 1);
    }
  }

  lemma {:induction false} ShiftedOut(n: nat, k: nat)
    requires n < Pow16(k)
    ensures Shifted(n, k) == 0
  {
    if k > 0 {
      ShiftedOut(n / 16, k - 1);
    }
  }

  /** Write the nibbles of the high word from the top, skipping the leading zeros. */
  method WriteHighHex(high: uint64) returns (highHex: string)
    ensures highHex == ShortHex(high)
  {
    highHex := "";
    var started := false;
    var nibbles := 16;
    Pow16Words();
    ShiftedOut(high, 16);
    while nibbles > 0
      invariant 0 <= nibbles <= 16
      invariant highHex == ShortHex(Shifted(high, nibbles))
      invariant started <==> Shifted(high, nibbles) != 0
    {
      nibbles := nibbles - 1;
      ShiftedOnce(high, nibbles);
      var nibble := Shifted(high, nibbles) % 16;
      if started || nibble != 0 {
        started := true;
        highHex := highHex + [HexChar(nibble)];
      }
    }
  }

  method ParseDatadogHexId(text: string) returns (r: Option<SplitId>)
    ensures r.Some? <==> IsHexId(text)
    ensures r.Some? ==> r.value == Split(IdValue(text))
  {
    var trimmed := IdDigits(text);
    if trimmed == "" || |trimmed| > 32 {
      return None;
    }
    var parsedLow: uint64, parsedHigh: uint64 := 0, 0;
    var i := 0;
    while i < |trimmed|
      invariant 0 <= i <= |trimmed|
      invariant AllHex(trimmed[..i])
      invariant parsedHigh * TWO_64 + parsedLow == HexValue(trimmed[..i])
    {
      var c := trimmed[i];
      if !IsHexChar(c) {
        return None;
      }
      PrefixIsSmall(trimmed, i);
      ShiftInDigit(parsedHigh, parsedLow, HexDigitValue(c));
      ReadDigit(trimmed, i);
      // The operands of each `|` have no bit in common, so it adds.
      parsedHigh, parsedLow :=
        parsedHigh * 16 % TWO_64 + parsedLow / TOP_NIBBLE,
        parsedLow * 16 % TWO_64 + HexDigitValue(c);
      i := i + 1;
    }
    assert trimmed[..i] == trimmed;
    QuotientIs(HexValue(trimmed), TWO_64, parsedHigh, parsedLow);
    var highHex := "";
    if parsedHigh != 0 {
      highHex := WriteHighHex(parsedHigh);
    }
    r := Some(SplitId(parsedLow, highHex));
  }

  /** Splitting loses nothing and the high part is in shortest form. */
  lemma SplitIsExact(n: nat)
    requires n < TWO_64 * TWO_64
    ensures IsShortHex(Split(n).highHex) && Joined(Split(n)) == n
    ensures Split(n).highHex == "" <==> n < TWO_64
  {
    ShortHexDenotes(n / TWO_64);
  }

  lemma IdValueBound(text: string)
    requires IsHexId(text)
    ensures IdValue(text) < TWO_64 * TWO_64
  {
    HexValueBound(IdDigits(text));
    Pow16Monotone(|IdDigits(text)|, 32);
    Pow16Words();
  }

  // ----- how an id may be spelled -----

  /** Every digit has its place in the alphabet, in either letter case. */
  lemma DigitPlaces(d: nat)
    requires d < 16
    ensures var lower, upper := "0123456789abcdef"[d], "0123456789ABCDEF"[d];
            IsHexChar(lower) && IsHexChar(upper) && HexDigitValue(lower) == d == HexDigitValue(upper)
  {
  }

  lemma {:induction false} TrimLeftLower(s: string)
    ensures TrimLeft(Lower(s)) == Lower(TrimLeft(s))
  {
    if s != "" && IsSpace(s[0]) {
      TrimLeftLower(s[1..]);
      assert Lower(s)[1..] == Lower(s[1..]);
    }
  }

  lemma {:induction false} TrimRightLower(s: string)
    ensures TrimRight(Lower(s)) == Lower(TrimRight(s))
  {
    if s != "" && IsSpace(s[|s| - 1]) {
      TrimRightLower(s[..|s| - 1]);
      assert Lower(s)[..|s| - 1] == Lower(s[..|s| - 1]);
    }
  }

  lemma LowerIdDigits(text: string)
    ensures IdDigits(Lower(text)) == Lower(IdDigits(text))
  {
    TrimLeftLower(text);
    TrimRightLower(TrimLeft(text));
    var trimmed := Trim(text);
    if |trimmed| >= 2 {
      assert Lower(trimmed)[2..] == Lower(trimmed[2..]);
    }
  }

  lemma {:induction false} LowerHexValue(s: string)
    ensures AllHex(Lower(s)) <==> AllHex(s)
    ensures AllHex(s) ==> HexValue(Lower(s)) == HexValue(s)
  {
    assert forall i :: 0 <= i < |s| ==> (IsHexChar(Lower(s)[i]) <==> IsHexChar(s[i]));
    if s != "" && AllHex(s) {
      LowerHexValue(s[..|s| - 1]);
      assert Lower(s)[..|s| - 1] == Lower(s[..|s| - 1]);
    }
  }

  /** Letter case makes no difference, to the digits and to the prefix. */
  lemma CaseDoesNotMatter(text: string)
    ensures IsHexId(Lower(text)) <==> IsHexId(text)
    ensures IsHexId(text) ==> IdValue(Lower(text)) == IdValue(text)
  {
    LowerIdDigits(text);
    LowerHexValue(IdDigits(text));
  }

  /** Hex digits alone are neither trimmed nor taken for a prefix. */
  lemma BareDigits(digits: string)
    requires AllHex(digits) && digits != ""
    ensures IdDigits(digits) == digits
  {
    assert IsHexChar(digits[0]) && IsHexChar(digits[|digits| - 1]);
    assert |digits| >= 2 ==> IsHexChar(digits[1]);
    TrimIsIdentity(digits);
  }

  lemma PrefixedDigits(x: char, digits: string)
    requires (x == 'x' || x == 'X') && AllHex(digits) && digits != ""
    ensures IdDigits(['0', x] + digits) == digits
  {
    var text := ['0', x] + digits;
    assert text[0] == '0' && text[1] == x && text[2..] == digits;
    assert text[|text| - 1] == digits[|digits| - 1] && IsHexChar(digits[|digits| - 1]);
    TrimIsIdentity(text);
  }

  /** Nor does either prefix. */
  lemma PrefixDoesNotMatter(digits: string)
    requires AllHex(digits) && 1 <= |digits| <= 32
    ensures IsHexId(digits) && IsHexId("0x" + digits) && IsHexId("0X" + digits)
    ensures IdValue(digits) == IdValue("0x" + digits) == IdValue("0X" + digits) == HexValue(digits)
  {
    BareDigits(digits);
    PrefixedDigits('x', digits);
    PrefixedDigits('X', digits);
    assert ['0', 'x'] + digits == "0x" + digits && ['0', 'X'] + digits == "0X" + digits;
  }

  /** The two parts denote the parsed number: no bit is lost in the shifts. */
  lemma ParseIsExact(text: string)
    requires IsHexId(text)
    ensures var id := Split(IdValue(text));
            IsShortHex(id.highHex) && Joined(id) == IdValue(text)
  {
    IdValueBound(text);
    SplitIsExact(IdValue(text));
  }

  /** The canonical text of a split id: the high part followed by all sixteen low digits. */
  function CanonicalIdText(id: SplitId): string {
    id.highHex + PadHex(id.low, 16)
  }

  /** Re-parsing the canonical text gives the same split id. */
  lemma CanonicalIdRoundTrip(n: nat)
    requires n < TWO_64 * TWO_64
    ensures var text := CanonicalIdText(Split(n));
            IsHexId(text) && IdValue(text) == n
  {
    var id := Split(n);
    var text := CanonicalIdText(id);
    Pow16Words();
    SplitIsExact(n);
    ShortHexLength(n / TWO_64, 16);
    PadHexDenotes(id.low, 16);
    HexValueAppend(id.highHex, PadHex(id.low, 16));
    BareDigits(text);
  }

  // ----- the grouping key -----

  /** The text two spans must share to land in the same trace. */
  function TraceKey(id: SplitId): string {
    id.highHex + ":" + Decimal(id.low)
  }

  /** Equal keys mean equal ids, because a hexadecimal prefix holds no colon. */
  lemma TraceKeyInjective(a: SplitId, b: SplitId)
    requires AllHex(a.highHex) && AllHex(b.highHex)
    requires TraceKey(a) == TraceKey(b)
    ensures a == b
  {
    var ka, kb := TraceKey(a), TraceKey(b);
    var m, n := |a.highHex|, |b.highHex|;
    assert ka[m] == ':' && kb[n] == ':';
    assert forall i :: 0 <= i < n ==> kb[i] == b.highHex[i] && kb[i] != ':';
    assert forall i :: 0 <= i < m ==> ka[i] == a.highHex[i] && ka[i] != ':';
    assert m == n;
    assert a.highHex == ka[..m] == kb[..n] == b.highHex;
    assert Decimal(a.low) == ka[m + 1..] == kb[n + 1..] == Decimal(b.low);
    DecimalInjective(a.low, b.low);
  }

  /** Two parsed ids share a key exactly when their texts denote the same 128-bit number. */
  lemma TraceKeyIdentifiesNumber(s: string, t: string)
    requires IsHexId(s) && IsHexId(t)
    ensures TraceKey(Split(IdValue(s))) == TraceKey(Split(IdValue(t))) <==> IdValue(s) == IdValue(t)
  {
    ParseIsExact(s);
    ParseIsExact(t);
    if TraceKey(Split(IdValue(s))) == TraceKey(Split(IdValue(t))) {
      TraceKeyInjective(Split(IdValue(s)), Split(IdValue(t)));
    }
  }
}
