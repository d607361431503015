/**
 The character and number primitives of the C++ library that the modelled code calls:
 `StringUtil::Trim`, `std::to_string`, `std::stoll` and `std::stoi`.
 */
module Text {
  import opened Prelude

  predicate IsSpace(c: char) {
    c == ' ' || '\t' <= c <= '\r'
  }

  predicate IsDigit(c: char) {
    '0' <= c <= '9'
  }

  function TrimLeft(s: string): string {
    if s != "" && IsSpace(s[0]) then TrimLeft(s[1..]) else s
  }

  function TrimRight(s: string): string {
    if s != "" && IsSpace(s[|s| - 1]) then TrimRight(s[..|s| - 1]) else s
  }

  function Trim(s: string): string {
    TrimRight(TrimLeft(s))
  }

  /** Trimming changes nothing when neither end is white space. */
  lemma TrimIsIdentity(s: string)
    requires s != "" ==> !IsSpace(s[0]) && !IsSpace(s[|s| - 1])
    ensures Trim(s) == s
  {
  }

  predicate AllDigits(s: string) {
    forall i :: 0 <= i < |s| ==> IsDigit(s[i])
  }

  function DigitValue(c: char): nat
    requires IsDigit(c)
  {
    c as int - '0' as int
  }

  function DigitChar(d: nat): char
    requires d < 10
  {
    ('0' as int + d) as char
  }

  /** The number a digit sequence denotes in base ten. */
  function DigitsValue(s: string): nat
    requires AllDigits(s)
  {
    if s == "" then 0 else DigitsValue(s[..|s| - 1]) * 10 + DigitValue(s[|s| - 1])
  }

  /** `std::to_string` of an unsigned number. */
  function Decimal(n: nat): string {
    if n < 10 then [DigitChar(n)] else Decimal(n / 10) + [DigitChar(n % 10)]
  }

  /** `std::to_string` of a signed number. */
  function IntText(i: int): string {
    if i < 0 then "-" + Decimal(-i) else Decimal(i)
  }

  lemma {:induction false} DecimalDenotes(n: nat)
    ensures Decimal(n) != "" && AllDigits(Decimal(n)) && DigitsValue(Decimal(n)) == n
  {
    if n < 10 {
      assert Decimal(n)[..0] == "";
    } else {
      DecimalDenotes(n / 10);
      var s := Decimal(n);
      assert s[..|s| - 1] == Decimal(n / 10);
    }
  }

  /** Printing in base ten is injective. */
  lemma DecimalInjective(a: nat, b: nat)
    requires Decimal(a) == Decimal(b)
    ensures a == b
  {
    DecimalDenotes(a);
    DecimalDenotes(b);
  }

  /** Length of the leading run of digits. */
  function DigitRun(s: string): (n: nat)
    ensures n <= |s| && AllDigits(s[..n])
    ensures n < |s| ==> !IsDigit(s[n])
  {
    if s != "" && IsDigit(s[0]) then
      var m := DigitRun(s[1..]);
      assert s[..m + 1] == [s[0]] + s[1..][..m];
      m + 1
    else 0
  }

  lemma DigitRunOfDigits(s: string)
    requires AllDigits(s)
    ensures DigitRun(s) == |s|
  {
  }

  /** A parsed integer and the number of characters it took. */
  datatype Scanned = Scanned(value: int, consumed: nat)

  function SpaceRun(s: string): (n: nat)
    ensures n <= |s|
  {
    if s != "" && IsSpace(s[0]) then 1 + SpaceRun(s[1..]) else 0
  }

  /**
   What `std::stoll` and `std::stoi` read before their range check: leading white space, an
   optional sign, then the longest run of digits. None is `std::invalid_argument`.
   */
  function ScanInteger(text: string): (r: Option<Scanned>)
    ensures r.Some? ==> 0 < r.value.consumed <= |text|
  {
    var blanks := SpaceRun(text);
    var rest := text[blanks..];
    var signed := rest != "" && (rest[0] == '-' || rest[0] == '+');
    var body := if signed then rest[1..] else rest;
    var n := DigitRun(body);
    if n == 0 then None
    else
      var magnitude := DigitsValue(body[..n]);
      Some(Scanned(if signed && rest[0] == '-' then 0 - magnitude else magnitude,
                   blanks + (if signed then 1 else 0) + n))
  }

  /** `std::stoll`; None stands for either exception. */
  function Stoll(text: string): Option<Scanned> {
    var r := ScanInteger(text);
    if r.Some? && FitsInt64(r.value.value) then r else None
  }

  /** The shape the epoch-millisecond check accepts: an optional minus sign and digits. */
  predicate IsIntegerText(s: string) {
    var body := if s != "" && s[0] == '-' then s[1..] else s;
    body != "" && AllDigits(body)
  }

  function IntegerTextValue(s: string): int
    requires IsIntegerText(s)
  {
    if s[0] == '-' then 0 - DigitsValue(s[1..]) else DigitsValue(s)
  }

  /** On such a text, `std::stoll` reads all of it and its value is the denoted one. */
  lemma StollOfIntegerText(s: string)
    requires IsIntegerText(s)
    ensures Stoll(s) == if FitsInt64(IntegerTextValue(s)) then Some(Scanned(IntegerTextValue(s), |s|)) else None
  {
    var body := if s[0] == '-' then s[1..] else s;
    assert SpaceRun(s) == 0 && s[0..] == s;
    DigitRunOfDigits(body);
    assert body[..|body|] == body;
  }

  /** `std::to_string` followed by the integer reader is the identity. */
  lemma IntTextDenotes(i: int)
    ensures IsIntegerText(IntText(i)) && IntegerTextValue(IntText(i)) == i
  {
    DecimalDenotes(if i < 0 then -i else i);
    var s := IntText(i);
    if i < 0 {
      assert s[1..] == Decimal(-i);
    } else {
      assert IsDigit(s[0]);
    }
  }

  /** `StringUtil::Lower`, which changes the ASCII capitals. */
  function Lower(s: string): (lower: string)
    ensures |lower| == |s|
  {
    seq(|s|, i requires 0 <= i < |s| => if 'A' <= s[i] <= 'Z' then s[i] + ('a' - 'A') else s[i])
  }

  predicate StartsWith(s: string, prefix: string) {
    |prefix| <= |s| && s[..|prefix|] == prefix
  }

  /** The first position of `c` in `s` from `from` on; the length of `s` stands for "not found". */
  function Find(s: string, c: char, from: nat): (k: nat)
    requires from <= |s|
    ensures from <= k <= |s| && (k < |s| ==> s[k] == c) && forall i :: from <= i < k ==> s[i] != c
    decreases |s| - from
  {
    if from == |s| || s[from] == c then from else Find(s, c, from + 1)
  }

  /**
   The pieces between delimiters. The text after the last one is a piece even when it is empty; callers
   drop empty pieces, so it does not matter whether the library's split reports it.
   */
  function SplitOn(s: string, delimiter: char): seq<string> {
    if s == "" then [""]
    else
      var rest := SplitOn(s[1..], delimiter);
      if s[0] == delimiter then [""] + rest else [[s[0]] + rest[0]] + rest[1..]
  }

  /** A piece without the delimiter is split off whole. */
  lemma {:induction false} SplitPiece(piece: string, rest: string, delimiter: char)
    requires forall i :: 0 <= i < |piece| ==> piece[i] != delimiter
    ensures SplitOn(piece + [delimiter] + rest, delimiter) == [piece] + SplitOn(rest, delimiter)
    ensures SplitOn(piece, delimiter) == [piece]
  {
    if piece == "" {
      assert piece + [delimiter] + rest == [delimiter] + rest;
      assert ([delimiter] + rest)[1..] == rest;
    } else {
      SplitPiece(piece[1..], rest, delimiter);
      assert (piece + [delimiter] + rest)[1..] == piece[1..] + [delimiter] + rest;
      assert (piece + [delimiter] + rest)[0] == piece[0];
      assert [piece[0]] + piece[1..] == piece;
      assert ([piece[1..]] + SplitOn(rest, delimiter))[1..] == SplitOn(rest, delimiter);
    }
  }
}
