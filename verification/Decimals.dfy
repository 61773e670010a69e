/** Numbers, flags and log levels as text: util/config/xml/config_writer.c and config_reader.c. */
module Decimals {
  function Digit(d: nat): char
    requires d < 10
  {
    "0123456789"[d]
  }

  predicate IsDigit(c: char) {
    '0' <= c <= '9'
  }

  predicate AllDigits(s: string) {
    forall i :: 0 <= i < |s| ==> IsDigit(s[i])
  }

  function Value(c: char): (d: nat)
    ensures d < 10
  {
    if IsDigit(c) then (c - '0') as int else 0
  }

  /** The decimal digits of a number. */
  function Digits(n: nat): string {
    if n < 10 then [Digit(n)] else Digits(n / 10) + [Digit(n % 10)]
  }

  /** printf's %d. */
  function Decimal(n: int): string {
    if n < 0 then "-" + Digits(-n) else Digits(n)
  }

  /** The number that a row of digits stands for. */
  function Number(s: string): nat {
    if s == "" then 0 else 10 * Number(s[..|s| - 1]) + Value(s[|s| - 1])
  }

  /** How many digits a text starts with. */
  function Leading(s: string): (n: nat)
    ensures n <= |s|
  {
    if s == "" || !IsDigit(s[0]) then 0 else 1 + Leading(s[1..])
  }

  /** The number at the start of a text, 0 if there is none. */
  function Unsigned(s: string): nat {
    Number(s[..Leading(s)])
  }

  /** White space as isspace sees it in the C locale. */
  predicate IsSpace(c: char) {
    c == ' ' || '\t' <= c <= '\r'
  }

  /** atoi, for numbers that fit an int: white space, a sign, digits; anything after them is ignored. */
  function Atoi(s: string): int {
    if s == "" then 0
    else if IsSpace(s[0]) then Atoi(s[1..])
    else if s[0] == '-' then 0 - Unsigned(s[1..])
    else if s[0] == '+' then Unsigned(s[1..])
    else Unsigned(s)
  }

  /** int_to_str: a buffer of ten, one of them for the final NUL, so at most nine characters are printed. */
  function IntToStr(n: int): string {
    var s := Decimal(n);
    if |s| <= 9 then s else s[..9]
  }

  function LoglevelToStr(level: int): string {
    if level == 0 then "LOG_DEBUG"
    else if level == 1 then "LOG_INFO"
    else if level == 2 then "LOG_MESSAGE"
    else if level == 3 then "LOG_WARNING"
    else if level == 4 then "LOG_ERROR"
    else "LOG_FAILURE"
  }

  function ParseLoglevel(s: string): int {
    if s == "LOG_DEBUG" then 0
    else if s == "LOG_INFO" then 1
    else if s == "LOG_MESSAGE" then 2
    else if s == "LOG_WARNING" then 3
    else if s == "LOG_ERROR" then 4
    else if s == "LOG_FAILURE" then 5
    else -1
  }

  function BoolToStr(b: int): string {
    if b != 0 then "true" else "false"
  }

  function ParseBool(s: string): int {
    if s == "true" then 1 else if s == "false" then 0 else -1
  }

  // ---- what survives printing ----

  function Power10(k: nat): nat {
    if k == 0 then 1 else 10 * Power10(k - 1)
  }

  /** A row of k digits stands for less than 10^k. */
  lemma {:induction false} NumberBound(s: string)
    ensures Number(s) < Power10(|s|)
  {
    if s != "" { NumberBound(s[..|s| - 1]); }
  }

  lemma {:induction false} DigitsAreDigits(n: nat)
    ensures Digits(n) != "" && AllDigits(Digits(n))
  {
    if n >= 10 { DigitsAreDigits(n / 10); }
  }

  /** The digits of a number stand for it. */
  lemma {:induction false} NumberOfDigits(n: nat)
    ensures Number(Digits(n)) == n
  {
    if n >= 10 {
      NumberOfDigits(n / 10);
      var s := Digits(n);
      assert s[..|s| - 1] == Digits(n / 10);
      assert s[|s| - 1] == Digit(n % 10);
    }
  }

  /** A number below 10^k takes at most k digits. */
  lemma {:induction false} DigitsBound(n: nat, k: nat)
    requires n < Power10(k) && k > 0
    ensures |Digits(n)| <= k
  {
    if n >= 10 { DigitsBound(n / 10, k - 1); }
  }

  lemma {:induction false} AllLeading(s: string)
    requires AllDigits(s)
    ensures Leading(s) == |s| && Unsigned(s) == Number(s)
  {
    if s == "" {
    } else {
      AllLeading(s[1..]);
    }
    assert s[..|s|] == s;
  }

  /** What comes back from a printed number: that of its first nine digits, or first eight after a minus sign. */
  lemma AtoiOfPrinted(n: int)
    ensures var d := Digits(if n < 0 then -n else n);
            var kept := if n < 0 then 8 else 9;
            Atoi(IntToStr(n)) == (if n < 0 then -1 else 1) * Number(if |d| <= kept then d else d[..kept])
  {
    var d := Digits(if n < 0 then -n else n);
    var s := IntToStr(n);
    DigitsAreDigits(if n < 0 then -n else n);
    if n < 0 {
      var shown := if |d| <= 8 then d else d[..8];
      assert s == "-" + shown;
      assert s[1..] == shown;
      AllLeading(shown);
    } else {
      AllLeading(s);
    }
  }

  lemma Powers()
    ensures Power10(8) == 100_000_000 && Power10(9) == 1_000_000_000
  {
    assert Power10(2) == 100;
    assert Power10(4) == 10_000;
    assert Power10(6) == 1_000_000;
  }

  lemma {:induction false} PowersGrow(j: nat, k: nat)
    requires j <= k
    ensures Power10(j) <= Power10(k)
  {
    if j < k { PowersGrow(j, k - 1); }
  }

  /** An integer survives being printed and read exactly within this range. */
  lemma IntSurvivesIff(n: int)
    ensures Atoi(IntToStr(n)) == n <==> -99_999_999 <= n <= 999_999_999
  {
    var m: nat := if n < 0 then -n else n;
    var kept: nat := if n < 0 then 8 else 9;
    AtoiOfPrinted(n);
    NumberOfDigits(m);
    Powers();
    var d := Digits(m);
    if m < Power10(kept) {
      DigitsBound(m, kept);
    } else {
      var shown := if |d| <= kept then d else d[..kept];
      NumberBound(shown);
      PowersGrow(|shown|, kept);
    }
  }

  /** Printing and reading keeps the truth value of a flag, and the flag itself exactly if it is 0 or 1. */
  lemma BoolSurvivesIff(b: int)
    ensures ParseBool(BoolToStr(b)) == (if b != 0 then 1 else 0)
    ensures ParseBool(BoolToStr(b)) == b <==> b == 0 || b == 1
  {
    assert "false"[0] != "true"[0];
  }

  /** A log level survives exactly if it is one of the six; any other comes back as LOG_FAILURE. */
  lemma LoglevelSurvivesIff(level: int)
    ensures ParseLoglevel(LoglevelToStr(level)) == (if 0 <= level <= 5 then level else 5)
    ensures ParseLoglevel(LoglevelToStr(level)) == level <==> 0 <= level <= 5
  {
    assert "LOG_DEBUG"[4] == 'D' && "LOG_INFO"[4] == 'I' && "LOG_MESSAGE"[4] == 'M';
    assert "LOG_WARNING"[4] == 'W' && "LOG_ERROR"[4] == 'E' && "LOG_FAILURE"[4] == 'F';
  }
}
