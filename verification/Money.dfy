/** The decimal money parser of `Money.rub` and the two printers that feed it. */
module Money {
  import opened Basics

  datatype MoneyError = InvalidMoneyAmount

  // ---------------------------------------------------------------- decimal strings

  predicate IsDigit(c: char) {
    '0' <= c <= '9'
  }

  /** A non-empty run of digits. */
  predicate IsDigits(s: string) {
    |s| > 0 && forall i :: 0 <= i < |s| ==> IsDigit(s[i])
  }

  function DigitChar(d: int): char
    requires 0 <= d <= 9
  {
    ('0' as int + d) as char
  }

  /** Decimal digits of a natural number, as `toString` writes them. */
  function DecString(n: nat): string {
    if n < 10 then [DigitChar(n)] else DecString(n / 10) + [DigitChar(n % 10)]
  }

  function IntString(n: int): string {
    if n < 0 then "-" + DecString(-n) else DecString(n)
  }

  /** `BigInt` of a run of digits. */
  function DecValue(s: string): nat
    requires forall i :: 0 <= i < |s| ==> IsDigit(s[i])
  {
    if s == [] then 0
    else
      assert IsDigit(s[|s| - 1]);
      10 * DecValue(s[..|s| - 1]) + (s[|s| - 1] as int - '0' as int)
  }

  lemma {:induction false} DecStringRead(n: nat)
    ensures IsDigits(DecString(n)) && DecValue(DecString(n)) == n
  {
    var s := DecString(n);
    if n < 10 {
      assert s[..0] == [];
    } else {
      DecStringRead(n / 10);
      assert s[..|s| - 1] == DecString(n / 10);
    }
  }

  // ---------------------------------------------------------------- JavaScript string operations

  /** WhiteSpace and LineTerminator, sections 12.2 and 12.3 of ECMA-262. */
  predicate IsSpace(c: char) {
    c in {' ', '\t', '\n', '\r', '\U{0B}', '\U{0C}', '\U{A0}', '\U{1680}', '\U{2028}', '\U{2029}',
          '\U{202F}', '\U{205F}', '\U{3000}', '\U{FEFF}'} || '\U{2000}' <= c <= '\U{200A}'
  }

  function TrimStart(s: string): string {
    if s != [] && IsSpace(s[0]) then TrimStart(s[1..]) else s
  }

  function TrimEnd(s: string): string {
    if s != [] && IsSpace(s[|s| - 1]) then TrimEnd(s[..|s| - 1]) else s
  }

  function Trim(s: string): string {
    TrimEnd(TrimStart(s))
  }

  /** `padStart(2, '0')`. */
  function PadStart2(s: string): string {
    if |s| == 0 then "00" else if |s| == 1 then "0" + s else s
  }

  /** `padEnd(2, '0')`. */
  function PadEnd2(s: string): string {
    if |s| == 0 then "00" else if |s| == 1 then s + "0" else s
  }

  /** The first position of a character, or the length. */
  function IndexOf(s: string, c: char): (k: nat)
    ensures k <= |s| && (forall i :: 0 <= i < k ==> s[i] != c) && (k < |s| ==> s[k] == c)
  {
    if s == [] || s[0] == c then 0
    else
      var k := IndexOf(s[1..], c);
      assert forall i :: 0 < i < k + 1 ==> s[i] == s[1..][i - 1];
      k + 1
  }

  /** `replace(c, '')`: drops the first occurrence only. */
  function DropFirst(s: string, c: char): string {
    var k := IndexOf(s, c);
    if k < |s| then s[..k] + s[k + 1..] else s
  }

  // ---------------------------------------------------------------- Money.toCents

  function Unsigned(s: string): string {
    if |s| > 0 && s[0] == '-' then s[1..] else s
  }

  /** `\d+(?:\.\d{1,2})?`, decided left to right. */
  predicate MatchesBody(u: string) {
    var k := IndexOf(u, '.');
    && IsDigits(u[..k])
    && (k < |u| ==> IsDigits(u[k + 1..]) && |u[k + 1..]| <= 2)
  }

  /** The pattern `^-?\d+(?:\.\d{1,2})?$`. */
  predicate MatchesPattern(s: string) {
    MatchesBody(Unsigned(s))
  }

  /** After the first character a matching string holds only digits and the point. */
  lemma MatchedCharacters(s: string, i: int)
    requires MatchesPattern(s) && 0 <= i < |Unsigned(s)|
    ensures IsDigit(Unsigned(s)[i]) || Unsigned(s)[i] == '.'
  {
    var u := Unsigned(s);
    var k := IndexOf(u, '.');
    if i < k {
      assert u[i] == u[..k][i];
    } else if i > k {
      assert u[i] == u[k + 1..][i - k - 1];
    }
  }

  /** So dropping the first minus sign drops the leading one. */
  lemma SignOnlyInFront(s: string)
    requires MatchesPattern(s)
    ensures DropFirst(s, '-') == Unsigned(s)
  {
    hide MatchesPattern;
    if |s| > 0 && s[0] != '-' {
      forall i | 0 <= i < |s| ensures s[i] != '-' {
        MatchedCharacters(s, i);
      }
    }
  }

  /** The two parts around the point, read as rubles and as cents padded on the right. */
  function BodyCents(u: string): nat
    requires MatchesBody(u)
  {
    var dot := IndexOf(u, '.');
    var centsPart := if dot < |u| then u[dot + 1..] else "";
    DecValue(u[..dot]) * 100 + DecValue(PadEnd2(centsPart))
  }

  /** `Money.toCents` on a string. */
  function ToCents(amount: string): Result<int, MoneyError> {
    var normalized := Trim(amount);
    if !MatchesPattern(normalized) then Err(InvalidMoneyAmount)
    else
      var sign := if normalized != [] && normalized[0] == '-' then -1 else 1;
      SignOnlyInFront(normalized);
      Ok(sign * BodyCents(DropFirst(normalized, '-')))
  }

  /** `Money.rub`: the cents of the money created, or the error thrown. */
  function Rub(amount: string): Result<int, MoneyError> {
    match ToCents(amount)
    case Err(e) => Err(e)
    case Ok(cents) => if cents < 0 then Err(InvalidMoneyAmount) else Ok(cents)
  }

  predicate AtMostTwoDigits(s: string) {
    |s| <= 2 && forall i :: 0 <= i < |s| ==> IsDigit(s[i])
  }

  ghost function BodyText(rubles: string, decimals: string): string {
    rubles + (if decimals == [] then [] else ['.'] + decimals)
  }

  /** A written amount: optional sign, whole rubles, and at most two decimals. */
  ghost function Text(negative: bool, rubles: string, decimals: string): string {
    if negative then ['-'] + BodyText(rubles, decimals) else BodyText(rubles, decimals)
  }

  ghost function WrittenCents(negative: bool, rubles: string, decimals: string): int
    requires IsDigits(rubles) && AtMostTwoDigits(decimals)
  {
    (if negative then -1 else 1) *
    (100 * DecValue(rubles) +
     (if |decimals| == 0 then 0 else if |decimals| == 1 then 10 * DecValue(decimals) else DecValue(decimals)))
  }

  lemma {:induction false} IndexIs(s: string, c: char, n: nat)
    requires n <= |s| && (forall i :: 0 <= i < n ==> s[i] != c) && (n < |s| ==> s[n] == c)
    ensures IndexOf(s, c) == n
  {
    if n > 0 {
      IndexIs(s[1..], c, n - 1);
    }
  }

  lemma PadEndValue(d: string)
    requires AtMostTwoDigits(d)
    ensures DecValue(PadEnd2(d)) ==
            if |d| == 0 then 0 else if |d| == 1 then 10 * DecValue(d) else DecValue(d)
  {
    if |d| == 0 {
      assert "00"[..1] == "0" && "0"[..0] == "";
    } else if |d| == 1 {
      assert (d + "0")[..1] == d;
    }
  }

  lemma BodyReads(rubles: string, decimals: string)
    requires IsDigits(rubles) && AtMostTwoDigits(decimals)
    ensures var u := BodyText(rubles, decimals);
            MatchesBody(u) && BodyCents(u) == WrittenCents(false, rubles, decimals)
  {
    hide IndexOf, DecValue, PadEnd2;
    var u := BodyText(rubles, decimals);
    IndexIs(u, '.', |rubles|);
    assert u[..|rubles|] == rubles;
    if decimals != [] {
      assert u[|rubles| + 1..] == decimals;
    }
    PadEndValue(decimals);
  }

  lemma SignedBody(negative: bool, rubles: string, decimals: string)
    requires IsDigits(rubles)
    ensures var t := Text(negative, rubles, decimals);
            Unsigned(t) == BodyText(rubles, decimals) && |t| > 0 && (t[0] == '-' <==> negative)
  {
    assert BodyText(rubles, decimals)[0] == rubles[0];
  }

  /** The parser reads every written amount, and reads its value. */
  lemma ReadsWritten(s: string, negative: bool, rubles: string, decimals: string)
    requires IsDigits(rubles) && AtMostTwoDigits(decimals) && Trim(s) == Text(negative, rubles, decimals)
    ensures ToCents(s) == Ok(WrittenCents(negative, rubles, decimals))
  {
    hide Trim, Unsigned, MatchesBody, BodyCents, BodyText, Text, DropFirst, DecValue;
    BodyReads(rubles, decimals);
    SignedBody(negative, rubles, decimals);
    SignOnlyInFront(Trim(s));
  }

  /** White space is exactly these characters, by code. */
  lemma SpacesAre(c: char)
    ensures IsSpace(c) <==>
              var n := c as int;
              || 9 <= n <= 13 || n == 32 || n == 160 || n == 5760 || 8192 <= n <= 8202 || n == 8232 || n == 8233
              || n == 8239 || n == 8287 || n == 12288 || n == 65279
  {
  }

  predicate AllSpaces(s: string) {
    forall c :: c in s ==> IsSpace(c)
  }

  lemma {:induction false} TrimsFront(front: string, t: string)
    requires AllSpaces(front) && (t == [] || !IsSpace(t[0]))
    ensures TrimStart(front + t) == t
  {
    if front == [] {
      assert front + t == t;
    } else {
      assert front[0] in front && (front + t)[1..] == front[1..] + t;
      TrimsFront(front[1..], t);
    }
  }

  lemma {:induction false} TrimsBack(t: string, back: string)
    requires AllSpaces(back) && (t == [] || !IsSpace(t[|t| - 1]))
    ensures TrimEnd(t + back) == t
  {
    if back == [] {
      assert t + back == t;
    } else {
      assert back[|back| - 1] in back && (t + back)[..|t + back| - 1] == t + back[..|back| - 1];
      TrimsBack(t, back[..|back| - 1]);
    }
  }

  /** An amount is read at its value whatever white space stands around it. */
  lemma ReadsPadded(front: string, back: string, negative: bool, rubles: string, decimals: string)
    requires AllSpaces(front) && AllSpaces(back) && IsDigits(rubles) && AtMostTwoDigits(decimals)
    ensures ToCents(front + Text(negative, rubles, decimals) + back) == Ok(WrittenCents(negative, rubles, decimals))
  {
    var t := Text(negative, rubles, decimals);
    assert t[0] == '-' || t[0] == rubles[0];
    assert t[|t| - 1] == if decimals == [] then rubles[|rubles| - 1] else decimals[|decimals| - 1];
    assert !IsSpace(t[0]) && !IsSpace(t[|t| - 1]);
    hide Text, IsSpace, ToCents;
    assert front + t + back == front + (t + back);
    TrimsFront(front, t + back);
    TrimsBack(t, back);
    ReadsWritten(front + t + back, negative, rubles, decimals);
  }

  /** And it reads nothing else. */
  lemma ReadsOnlyWritten(s: string)
    requires ToCents(s).Ok?
    ensures exists negative, rubles, decimals ::
              IsDigits(rubles) && AtMostTwoDigits(decimals) && Trim(s) == Text(negative, rubles, decimals)
  {
    hide Trim;
    MatchedIsWritten(Trim(s));
  }

  lemma MatchedIsWritten(t: string)
    requires MatchesPattern(t)
    ensures exists negative, rubles, decimals ::
              IsDigits(rubles) && AtMostTwoDigits(decimals) && t == Text(negative, rubles, decimals)
  {
    hide IndexOf;
    var u := Unsigned(t);
    var k := IndexOf(u, '.');
    var decimals := if k < |u| then u[k + 1..] else "";
    assert u == BodyText(u[..k], decimals);
    assert t == Text(|t| > 0 && t[0] == '-', u[..k], decimals);
  }

  // ---------------------------------------------------------------- printers

  /** BigInt division and remainder truncate towards zero. */
  function TruncDiv(a: int, b: int): int
    requires b > 0
  {
    if a < 0 then -(-a / b) else a / b
  }

  function TruncMod(a: int, b: int): int
    requires b > 0
  {
    a - b * TruncDiv(a, b)
  }

  function Printed(rubles: int, kopecks: int): string {
    IntString(rubles) + (['.'] + PadStart2(IntString(kopecks)))
  }

  /** `centsToMoney`: bigint quotient and remainder. */
  function CentsToMoney(cents: int): Result<int, MoneyError> {
    Rub(Printed(TruncDiv(cents, 100), TruncMod(cents, 100)))
  }

  /** `moneyFromCents`: `Math.floor(cents / 100)` and the number remainder. */
  function MoneyFromCents(cents: int): Result<int, MoneyError> {
    Rub(Printed(cents / 100, TruncMod(cents, 100)))
  }

  lemma TrimKeeps(s: string)
    requires s != [] && !IsSpace(s[0]) && !IsSpace(s[|s| - 1])
    ensures Trim(s) == s
  {
  }

  /** Printing rubles and kopecks, then parsing, gives the cents back. */
  lemma PrintedRead(rubles: nat, kopecks: nat)
    requires kopecks < 100
    ensures Rub(Printed(rubles, kopecks)) == Ok(100 * rubles + kopecks)
  {
    var r, k := DecString(rubles), PadStart2(DecString(kopecks));
    DecStringRead(rubles);
    TwoDigits(kopecks);
    hide DecString, PadStart2, Trim, ToCents, DecValue;
    var s := Printed(rubles, kopecks);
    assert s == Text(false, r, k);
    assert s[0] == r[0] && s[|s| - 1] == k[1];
    assert IsDigit(r[0]) && IsDigit(k[1]);
    TrimKeeps(s);
    ReadsWritten(s, false, r, k);
  }

  lemma TwoDigits(k: nat)
    requires k < 100
    ensures var s := PadStart2(DecString(k));
            |s| == 2 && IsDigits(s) && DecValue(s) == k
  {
    DecStringRead(k);
    var d := DecString(k);
    if k < 10 {
      var s := "0" + d;
      assert s[..1] == "0" && "0"[..0] == "" && d[..0] == "";
      assert DecValue("0") == 0;
    } else {
      assert |DecString(k / 10)| == 1;
    }
  }

  /** A minus sign after the first character is never accepted. */
  lemma InnerMinusRejected(s: string, i: int)
    requires 0 < i < |s| - 1 && s[i] == '-' && IsDigit(s[|s| - 1]) && !IsSpace(s[0])
    ensures Rub(s) == Err(InvalidMoneyAmount)
  {
    TrimKeeps(s);
    hide MatchesPattern, Trim, DropFirst;
    if MatchesPattern(s) {
      MatchedCharacters(s, if s[0] == '-' then i - 1 else i);
    }
  }

  /** Negative kopecks print a minus sign inside the string. */
  lemma NegativeKopecks(rubles: int, kopecks: int)
    requires -100 < kopecks < 0
    ensures Rub(Printed(rubles, kopecks)) == Err(InvalidMoneyAmount)
  {
    var r, k := IntString(rubles), PadStart2(IntString(kopecks));
    DecStringRead(-kopecks);
    DecStringRead(if rubles < 0 then -rubles else rubles);
    assert k == IntString(kopecks) && k[0] == '-' && IsDigit(k[|k| - 1]);
    var s := Printed(rubles, kopecks);
    assert s == r + (['.'] + k);
    assert s[|r| + 1] == '-' && s[|s| - 1] == k[|k| - 1] && s[0] == r[0];
    InnerMinusRejected(s, |r| + 1);
  }

  /** A negative whole amount parses, to a negative number of cents, and is refused. */
  lemma NegativeRubles(rubles: int)
    requires rubles < 0
    ensures Rub(Printed(rubles, 0)) == Err(InvalidMoneyAmount)
  {
    var r := DecString(-rubles);
    DecStringRead(-rubles);
    var s := Printed(rubles, 0);
    assert PadStart2(IntString(0)) == "00";
    hide DecString, PadStart2, Trim, ToCents, DecValue;
    assert s == ("-" + r) + (['.'] + "00") == ['-'] + (r + (['.'] + "00"));
    assert s == Text(true, r, "00");
    assert s[0] == '-' && s[|s| - 1] == '0';
    TrimKeeps(s);
    ReadsWritten(s, true, r, "00");
  }

  /**
   Both printers round-trip through the parser for every amount a Money can hold,
   and no negative amount yields a Money.
   */
  lemma PrintersRoundTrip(cents: int)
    ensures CentsToMoney(cents) == if cents >= 0 then Ok(cents) else Err(InvalidMoneyAmount)
    ensures MoneyFromCents(cents) == if cents >= 0 then Ok(cents) else Err(InvalidMoneyAmount)
  {
    hide Rub, Printed;
    var r, k := TruncDiv(cents, 100), TruncMod(cents, 100);
    if cents >= 0 {
      PrintedRead(r, k);
    } else if k == 0 {
      NegativeRubles(r);
      NegativeRubles(cents / 100);
    } else {
      NegativeKopecks(r, k);
      NegativeKopecks(cents / 100, k);
    }
  }

  // ---------------------------------------------------------------- cents as strings

  /** What a bigint column or `cents.toString()` holds. */
  predicate IsIntString(s: string) {
    IsDigits(s) || (|s| > 1 && s[0] == '-' && IsDigits(s[1..]))
  }

  /** `Number` of such a string. */
  function IntValue(s: string): int
    requires IsIntString(s)
  {
    if s[0] == '-' then -(DecValue(s[1..]) as int) else DecValue(s)
  }

  /** `moneyFromCentsStr`. */
  function MoneyFromCentsStr(s: string): Result<int, MoneyError>
    requires IsIntString(s)
  {
    MoneyFromCents(IntValue(s))
  }

  lemma CentsStringRoundTrip(cents: nat)
    ensures IsIntString(IntString(cents)) && MoneyFromCentsStr(IntString(cents)) == Ok(cents)
  {
    DecStringRead(cents);
    PrintersRoundTrip(cents);
  }
}
