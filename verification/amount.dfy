/** Money as whole roubles and kopecks in two int64 fields, with its printer, parser and numeric form. */
module Amounts {
  import opened GoInt
  import opened Results

  const KOPECKS_IN_ROUBLE := 100

  datatype Amount = Amount(roubles: int64, kopeck: int64) {
    function TotalKopecks(): int64 {
      Wrap(roubles * KOPECKS_IN_ROUBLE + kopeck)
    }

    /** The unscaled integer of a numeric with exponent -2. */
    function ToPGNumeric(): int64 {
      Wrap(roubles * KOPECKS_IN_ROUBLE + kopeck)
    }

    function String(): string {
      if kopeck == 0 then FormatInt(roubles) else FormatInt(roubles) + "." + PadTwo(kopeck)
    }
  }

  const ZERO := Amount(0, 0)

  datatype AmountError = Malformed | Precision | InvalidNumeric

  function NewAmount(roubles: int64, kopeck: int64): Amount {
    Amount(Wrap(roubles + Quo(kopeck, KOPECKS_IN_ROUBLE)), Rem(kopeck, KOPECKS_IN_ROUBLE))
  }

  /** A numeric column value read back: `None` is SQL NULL, otherwise the unscaled integer at exponent -2. */
  function FromPGNumeric(n: Option<int64>): Result<Amount, AmountError> {
    match n
    case None => Err(InvalidNumeric)
    case Some(total) => Ok(Amount(Quo(total, KOPECKS_IN_ROUBLE), Rem(total, KOPECKS_IN_ROUBLE)))
  }

  // ---------------------------------------------------------------- decimal literals

  predicate IsDigit(c: char) {
    '0' <= c <= '9'
  }

  predicate IsDigits(s: string) {
    |s| > 0 && forall i :: 0 <= i < |s| ==> IsDigit(s[i])
  }

  predicate IsSign(c: char) {
    c == '+' || c == '-'
  }

  function DigitVal(c: char): nat
    requires IsDigit(c)
  {
    c as int - '0' as int
  }

  function DecVal(s: string): nat
    requires forall i :: 0 <= i < |s| ==> IsDigit(s[i])
  {
    if s == "" then 0 else 10 * DecVal(s[..|s| - 1]) + DigitVal(s[|s| - 1])
  }

  function Digits(n: nat): (s: string)
    ensures IsDigits(s) && DecVal(s) == n
  {
    var last := [('0' as int + n % 10) as char];
    if n < 10 then last else
      var front := Digits(n / 10);
      assert (front + last)[..|front|] == front;
      front + last
  }

  function FormatInt(n: int): string {
    if n < 0 then "-" + Digits(-n) else Digits(n)
  }

  /** The verb `%02d`: zero-padded to width two, where a minus sign counts toward the width. */
  function PadTwo(n: int): string {
    if 0 <= n < 10 then "0" + Digits(n) else FormatInt(n)
  }

  function Unsigned(s: string): string {
    if |s| > 0 && IsSign(s[0]) then s[1..] else s
  }

  function SignedVal(s: string): int
    requires IsDigits(Unsigned(s))
  {
    if s[0] == '-' then 0 - DecVal(Unsigned(s)) else DecVal(Unsigned(s))
  }

  /** strconv.ParseInt(s, 10, 64). */
  function ParseInt(s: string): Option<int64> {
    if IsDigits(Unsigned(s)) && FitsInt64(SignedVal(s)) then Some(SignedVal(s)) else None
  }

  /** strings.Split(s, "."). */
  function Split(s: string): (parts: seq<string>)
    ensures |parts| >= 1
    ensures forall i :: 0 <= i < |parts| ==> '.' !in parts[i]
    ensures Join(parts) == s
  {
    if s == "" then [""] else
      var rest := Split(s[1..]);
      if s[0] == '.' then
        assert ([""] + rest)[1..] == rest && "" + "." + Join(rest) == s;
        [""] + rest
      else
        var parts := [[s[0]] + rest[0]] + rest[1..];
        assert parts[1..] == rest[1..] && Join(parts) == [s[0]] + Join(rest);
        parts
  }

  /** The parts with dots between them. */
  function Join(parts: seq<string>): string
    requires |parts| >= 1
  {
    if |parts| == 1 then parts[0] else parts[0] + "." + Join(parts[1..])
  }

  function FromString(number: string): Result<Amount, AmountError> {
    FromParts(Split(number))
  }

  function FromParts(parts: seq<string>): Result<Amount, AmountError> {
    if |parts| == 0 || |parts| > 2 then Err(Malformed) else
      match ParseInt(parts[0])
      case None => Err(Malformed)
      case Some(rubs) =>
        if |parts| == 1 then Ok(NewAmount(rubs, 0))
        else if |parts[1]| > 2 then Err(Precision)
        else
          match ParseInt(parts[1])
          case None => Err(Malformed)
          case Some(kops) =>
            if |parts[1]| == 2 then Ok(NewAmount(rubs, kops)) else Ok(NewAmount(rubs, Wrap(kops * 10)))
  }

  // ---------------------------------------------------------------- splitting and short literals

  lemma {:induction false} SplitOne(r: string)
    requires '.' !in r
    ensures Split(r) == [r]
  {
    if r != "" {
      SplitOne(r[1..]);
    }
  }

  lemma {:induction false} SplitDot(r: string, t: string)
    requires '.' !in r
    ensures Split(r + "." + t) == [r] + Split(t)
  {
    var s := r + "." + t;
    if r == "" {
      assert s[1..] == t;
    } else {
      assert s[1..] == r[1..] + "." + t;
      SplitDot(r[1..], t);
      assert [r[0]] + r[1..] == r;
    }
  }

  /** Splitting undoes joining, for any number of parts without dots. */
  lemma {:induction false} SplitJoin(parts: seq<string>)
    requires |parts| >= 1 && forall i :: 0 <= i < |parts| ==> '.' !in parts[i]
    ensures Split(Join(parts)) == parts
  {
    if |parts| == 1 {
      SplitOne(parts[0]);
    } else {
      SplitJoin(parts[1..]);
      SplitDot(parts[0], Join(parts[1..]));
    }
  }

  lemma DotFree(s: string)
    requires IsDigits(Unsigned(s))
    ensures '.' !in s
  {
  }

  lemma FormatParses(n: int)
    requires FitsInt64(n)
    ensures ParseInt(FormatInt(n)) == Some(n) && '.' !in FormatInt(n)
  {
    var s := FormatInt(n);
    if n < 0 {
      assert Unsigned(s) == Digits(0 - n);
    } else {
      assert IsDigit(s[0]);
      assert Unsigned(s) == s;
    }
    DotFree(s);
  }

  lemma DecValOne(d: char)
    requires IsDigit(d)
    ensures IsDigits([d]) && DecVal([d]) == DigitVal(d)
  {
    assert [d][..0] == "";
  }

  lemma DecValTwo(c: char, d: char)
    requires IsDigit(c) && IsDigit(d)
    ensures IsDigits([c, d]) && DecVal([c, d]) == 10 * DigitVal(c) + DigitVal(d)
  {
    assert [c, d][..1] == [c];
    DecValOne(c);
  }

  lemma DigitsWidth(n: nat)
    ensures n < 10 <==> |Digits(n)| == 1
    ensures n < 100 <==> |Digits(n)| <= 2
  {
    if n >= 10 {
      assert |Digits(n)| == |Digits(n / 10)| + 1;
      if n >= 100 {
        assert |Digits(n / 10)| == |Digits(n / 100)| + 1 by { assert n / 10 / 10 == n / 100; }
      }
    }
  }

  /** What the printer emits after the dot parses back, and is at most two characters wide exactly in -9..99. */
  lemma KopeckPart(k: int)
    requires k != 0 && FitsInt64(k)
    ensures ParseInt(PadTwo(k)) == Some(k) && '.' !in PadTwo(k) && |PadTwo(k)| >= 2
    ensures |PadTwo(k)| == 2 <==> -9 <= k <= 99
  {
    var s := PadTwo(k);
    DigitsWidth(if k < 0 then 0 - k else k);
    if 0 <= k < 10 {
      var d := Digits(k)[0];
      assert s == ['0', d] && Digits(k) == [d];
      DecValOne(d);
      DecValTwo('0', d);
      assert Unsigned(s) == s;
      DotFree(s);
    } else {
      FormatParses(k);
    }
  }

  /** A whole number prints as its digits, with no zero in front of them and a minus sign where it is negative. */
  lemma {:induction false} PrintedWhole(n: int)
    ensures n == 0 ==> FormatInt(n) == "0"
    ensures n > 0 ==> IsDigits(FormatInt(n)) && DecVal(FormatInt(n)) == n && FormatInt(n)[0] != '0'
    ensures n < 0 ==> FormatInt(n) == "-" + FormatInt(-n)
  {
    if n >= 10 {
      PrintedWhole(n / 10);
    }
  }

  /** Kopecks below a rouble print as two digits. */
  lemma PrintedFraction(k: nat)
    requires k < 100
    ensures PadTwo(k) == [('0' as int + k / 10) as char, ('0' as int + k % 10) as char]
  {
    if k >= 10 {
      assert Digits(k / 10) == [('0' as int + k / 10) as char];
    }
  }

  /** An amount prints as its roubles alone, or with a dot and two digits of kopecks. */
  lemma Printed(a: Amount)
    requires 0 <= a.kopeck < 100
    ensures '.' !in FormatInt(a.roubles)
    ensures a.String() == FormatInt(a.roubles) +
              if a.kopeck == 0 then ""
              else "." + [('0' as int + a.kopeck / 10) as char, ('0' as int + a.kopeck % 10) as char]
  {
    FormatParses(a.roubles);
    PrintedFraction(a.kopeck);
    hide FormatInt, PadTwo;
  }

  // ---------------------------------------------------------------- round trip and image

  /** How the parser treats a printed amount: both parts parse, and only a wide fraction is refused. */
  lemma PrintedParts(r: string, k: string, a: Amount)
    requires ParseInt(r) == Some(a.roubles) && ParseInt(k) == Some(a.kopeck)
    requires |k| >= 2 && (|k| == 2 <==> -9 <= a.kopeck <= 99)
    ensures FromParts([r, k]) == if |k| == 2 then Ok(a) else Err(Precision)
  {
    hide ParseInt, NewAmount;
    if |k| == 2 {
      SmallAmount(a);
    }
  }

  /** Kopecks below a rouble carry nothing over. */
  lemma SmallAmount(a: Amount)
    requires -99 <= a.kopeck <= 99
    ensures NewAmount(a.roubles, a.kopeck) == a
  {
    assert Quo(a.kopeck, KOPECKS_IN_ROUBLE) == 0;
  }

  /** Printing then parsing gives the amount back exactly when its kopeck field lies in -9..99. */
  lemma RoundTrip(a: Amount)
    ensures FromString(a.String()) == if -9 <= a.kopeck <= 99 then Ok(a) else Err(Precision)
  {
    hide DecVal, Digits, PadTwo;
    if a.kopeck == 0 {
      FormatParses(a.roubles);
      SplitOne(a.String());
      assert NewAmount(a.roubles, 0) == a;
    } else {
      RoundTripFraction(a);
    }
  }

  lemma RoundTripFraction(a: Amount)
    requires a.kopeck != 0
    ensures FromString(a.String()) == if -9 <= a.kopeck <= 99 then Ok(a) else Err(Precision)
  {
    var r, k := FormatInt(a.roubles), PadTwo(a.kopeck);
    FormatParses(a.roubles);
    KopeckPart(a.kopeck);
    PrintedParts(r, k, a);
    SplitJoin([r, k]);
  }

  /** The literals allowed after the dot: d, dd, +d and -d. */
  predicate KopeckLiteral(k: string) {
    || (|k| == 1 && IsDigit(k[0]))
    || (|k| == 2 && (IsDigit(k[0]) || IsSign(k[0])) && IsDigit(k[1]))
  }

  /** An optionally signed run of digits whose value is an int64. */
  predicate RoubleLiteral(r: string) {
    IsDigits(Unsigned(r)) && FitsInt64(SignedVal(r))
  }

  /** The characters that these literals are made of: ten digits, each at its value, and two signs. */
  lemma Characters(c: char)
    ensures IsDigit(c) <==> c in "0123456789"
    ensures IsDigit(c) ==> "0123456789"[DigitVal(c)] == c
    ensures IsSign(c) <==> c in "+-"
  {
    var digits := "0123456789";
    if IsDigit(c) {
      assert digits[c as int - '0' as int] == c;
    }
  }

  /** `s` is the rouble literal `r`, followed by a dot and `k` unless `k` is empty. */
  ghost predicate Spelled(s: string, r: string, k: string) {
    RoubleLiteral(r) && if k == "" then s == r else KopeckLiteral(k) && s == r + "." + k
  }

  /** Kopecks denoted by the literal after the dot: one digit counts tens. */
  function LiteralKopecks(k: string): int
    requires k == "" || KopeckLiteral(k)
  {
    if k == "" then 0
    else if |k| == 1 then 10 * DigitVal(k[0])
    else if IsDigit(k[0]) then 10 * DigitVal(k[0]) + DigitVal(k[1])
    else if k[0] == '-' then 0 - DigitVal(k[1])
    else DigitVal(k[1])
  }

  lemma KopeckLiteralParses(k: string)
    requires 1 <= |k| <= 2
    ensures ParseInt(k).Some? <==> KopeckLiteral(k)
    ensures KopeckLiteral(k) ==>
              && IsDigits(Unsigned(k))
              && LiteralKopecks(k) == SignedVal(k) * (if |k| == 1 then 10 else 1)
              && -9 <= LiteralKopecks(k) <= 99
  {
    if |k| == 1 {
      assert k == [k[0]];
      if IsDigit(k[0]) {
        DecValOne(k[0]);
      }
    } else if IsSign(k[0]) {
      assert Unsigned(k) == [k[1]];
      if IsDigit(k[1]) {
        DecValOne(k[1]);
      }
    } else {
      assert k == [k[0], k[1]] && Unsigned(k) == k;
      if IsDigit(k[0]) && IsDigit(k[1]) {
        DecValTwo(k[0], k[1]);
      }
    }
  }

  lemma SpelledParse(s: string, r: string, k: string)
    requires Spelled(s, r, k)
    ensures -9 <= LiteralKopecks(k) <= 99
    ensures FromString(s) == Ok(NewAmount(SignedVal(r), LiteralKopecks(k)))
  {
    DotFree(r);
    if k == "" {
      SplitOne(r);
    } else {
      KopeckLiteralParses(k);
      DotFree(k);
      SplitJoin([r, k]);
      LiteralParts(r, k);
    }
  }

  lemma LiteralParts(r: string, k: string)
    requires RoubleLiteral(r) && KopeckLiteral(k)
    ensures -9 <= LiteralKopecks(k) <= 99
    ensures FromParts([r, k]) == Ok(NewAmount(SignedVal(r), LiteralKopecks(k)))
  {
    KopeckLiteralParses(k);
    var kops := ParseInt(k).value;
    assert |k| == 1 ==> Wrap(kops * 10) == LiteralKopecks(k);
  }

  lemma JoinTwo(parts: seq<string>)
    requires |parts| == 2
    ensures Join(parts) == parts[0] + "." + parts[1]
  {
    assert parts[1..] == [parts[1]];
  }

  /** The accepted language: a rouble literal in int64 range, optionally a dot and one of d, dd, +d, -d. */
  lemma AcceptedLanguage(s: string)
    ensures FromString(s).Ok? <==> exists r, k :: Spelled(s, r, k)
  {
    if FromString(s).Ok? {
      var parts := Split(s);
      if |parts| == 1 {
        assert Spelled(s, parts[0], "");
      } else {
        JoinTwo(parts);
        assert |parts[1]| >= 1;
        KopeckLiteralParses(parts[1]);
        assert Spelled(s, parts[0], parts[1]);
      }
    }
    if exists r, k :: Spelled(s, r, k) {
      var r, k :| Spelled(s, r, k);
      SpelledParse(s, r, k);
    }
  }

  /** The image of the parser is exactly the set of amounts that survive a round trip. */
  lemma Image(a: Amount)
    ensures (exists s :: FromString(s) == Ok(a)) <==> -9 <= a.kopeck <= 99
  {
    RoundTrip(a);
    if s :| FromString(s) == Ok(a) {
      ParsedKopecks(s);
    }
  }

  lemma ParsedKopecks(s: string)
    requires FromString(s).Ok?
    ensures -9 <= FromString(s).value.kopeck <= 99
  {
    hide FromString, SignedVal, LiteralKopecks, Spelled;
    AcceptedLanguage(s);
    var r, k :| Spelled(s, r, k);
    SpelledParse(s, r, k);
  }

  /** Parse, print, parse is the same as parse, for every accepted string. */
  lemma ParsePrintParse(s: string)
    requires FromString(s).Ok?
    ensures FromString(FromString(s).value.String()) == FromString(s)
  {
    ParsedKopecks(s);
    RoundTrip(FromString(s).value);
  }

  // ---------------------------------------------------------------- the value of an accepted decimal

  /** Kopecks denoted by a fraction of zero, one or two digits. */
  function FractionKopecks(k: string): nat
    requires forall i :: 0 <= i < |k| ==> IsDigit(k[i])
  {
    DecVal(k) * (if |k| == 1 then 10 else 1)
  }

  /** 100 times the number that the decimal `r` or `r.k` denotes; the sign covers the fraction too. */
  function DecimalKopecks(r: string, k: string): int
    requires RoubleLiteral(r) && forall i :: 0 <= i < |k| ==> IsDigit(k[i])
  {
    var magnitude := 100 * DecVal(Unsigned(r)) + FractionKopecks(k);
    if r[0] == '-' then -magnitude else magnitude
  }

  /** A decimal is read at its own value exactly when the total is an int64 and no minus sign meets a nonzero
      fraction: the parser gives the fraction a sign of its own, so "-1.50" comes out as minus fifty kopecks. */
  lemma DecimalValue(s: string, r: string, k: string)
    requires Spelled(s, r, k) && (k == "" || IsDigits(k))
    ensures FromString(s).Ok?
    ensures FromString(s).value.TotalKopecks() == DecimalKopecks(r, k)
       <==> FitsInt64(DecimalKopecks(r, k)) && (r[0] == '-' ==> FractionKopecks(k) == 0)
  {
    SpelledParse(s, r, k);
    var rubs, kops := SignedVal(r), FractionKopecks(k);
    if k != "" {
      KopeckLiteralParses(k);
      assert Unsigned(k) == k;
    }
    assert kops == LiteralKopecks(k);
    NewAmountTotal(rubs, kops);
    WrapNear(100 * rubs + kops, DecimalKopecks(r, k));
  }

  /** Numbers less than 2^64 apart are told apart by wrapping. */
  lemma WrapNear(x: int, v: int)
    requires -TWO64 < x - v < TWO64
    ensures Wrap(x) == v <==> FitsInt64(v) && x == v
  {
    var q := (x + TWO63) / TWO64;
    assert Wrap(x) == x - q * TWO64;
  }

  /** The witness for the sign: "-1.50" is accepted, and its total is not the number it spells. */
  lemma MinusSignDropsFraction(s: string)
    requires s == "-1.50"
    ensures FromString(s) == Ok(Amount(-1, 50)) && FromString(s).value.TotalKopecks() == -50
  {
    hide Split, FromParts;
    var r, k := s[..2], s[3..];
    assert Unsigned(r) == ['1'];
    DecValOne('1');
    assert s == r + "." + k;
    SpelledParse(s, r, k);
    assert NewAmount(-1, 50) == Amount(-1, 50);
  }

  // ---------------------------------------------------------------- totals and numerics

  /** Carrying kopecks over into roubles never changes the total, wrap-around included. */
  lemma NewAmountTotal(roubles: int64, kopeck: int64)
    ensures NewAmount(roubles, kopeck).TotalKopecks() == Wrap(100 * roubles + kopeck)
    ensures -99 <= NewAmount(roubles, kopeck).kopeck <= 99
    ensures var k := NewAmount(roubles, kopeck).kopeck;
            (k > 0 ==> kopeck > 0) && (k < 0 ==> kopeck < 0)
  {
    var carry := Quo(kopeck, KOPECKS_IN_ROUBLE);
    WrapLinear(KOPECKS_IN_ROUBLE, roubles + carry, Rem(kopeck, KOPECKS_IN_ROUBLE));
  }

  /** Fields that a total alone determines: kopecks below a rouble, and no disagreement in sign. */
  predicate Canonical(a: Amount) {
    && -99 <= a.kopeck <= 99
    && (a.roubles > 0 ==> a.kopeck >= 0) && (a.roubles < 0 ==> a.kopeck <= 0)
  }

  /** Kopecks alone, carried over into roubles. */
  lemma CarriedIsCanonical(kopeck: int64)
    ensures Canonical(NewAmount(0, kopeck))
  {
  }

  lemma CanonicalIsUnique(a: Amount, b: Amount)
    requires Canonical(a) && Canonical(b) && 100 * a.roubles + a.kopeck == 100 * b.roubles + b.kopeck
    ensures a == b
  {
  }

  lemma ReadIsCanonical(total: int64)
    ensures FromPGNumeric(Some(total)).Ok?
    ensures var a := FromPGNumeric(Some(total)).value; Canonical(a) && 100 * a.roubles + a.kopeck == total
  {
    hide Wrap;
  }

  /** Reading a stored integer gives an amount of that total, in its only canonical spelling; a NULL cannot be read. */
  lemma NumericTotal(total: int64)
    ensures FromPGNumeric(Some(total)).Ok? && FromPGNumeric(None).Err?
    ensures FromPGNumeric(Some(total)).value.TotalKopecks() == total
    ensures Canonical(FromPGNumeric(Some(total)).value)
  {
    ReadIsCanonical(total);
    WrapIsIdentity(total);
    assert FromPGNumeric(None).Err?;
    hide FromPGNumeric, Canonical, Wrap;
  }

  /** Storing keeps the total of every amount; it keeps the amount itself exactly when the total does not wrap,
      the kopecks are below a rouble, and the two fields do not disagree in sign. */
  lemma NumericRoundTrip(a: Amount)
    ensures FromPGNumeric(Some(a.ToPGNumeric())).Ok?
    ensures FromPGNumeric(Some(a.ToPGNumeric())).value.TotalKopecks() == a.TotalKopecks()
    ensures FromPGNumeric(Some(a.ToPGNumeric())) == Ok(a)
       <==> FitsInt64(100 * a.roubles + a.kopeck) && Canonical(a)
  {
    hide FromPGNumeric, Canonical;
    ReadIsCanonical(a.ToPGNumeric());
    var b := FromPGNumeric(Some(a.ToPGNumeric())).value;
    WrapIsIdentity(100 * a.roubles + a.kopeck);
    WrapIsIdentity(a.ToPGNumeric());
    hide Wrap;
    if FitsInt64(100 * a.roubles + a.kopeck) && Canonical(a) {
      CanonicalIsUnique(a, b);
    }
  }

  lemma WrapIsIdentity(x: int)
    ensures FitsInt64(x) <==> Wrap(x) == x
  {
  }
}
