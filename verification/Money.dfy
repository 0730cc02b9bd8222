/** Amounts as the customer reads them and as the agent writes them back: `brl`
    (src/control_plane/plane.py) and `_amount` (examples/banking/tools.py). An amount
    with two decimals is a number of cents. */
module Money {
  import opened Text

  function DigitChar(d: nat): char
    requires d < 10
  {
    '0' + d as char
  }

  predicate IsDigit(c: char) {
    '0' <= c <= '9'
  }

  predicate AllDigits(s: string) {
    forall c | c in s :: IsDigit(c)
  }

  function Digits(n: nat): string {
    if n < 10 then [DigitChar(n)] else Digits(n / 10) + [DigitChar(n % 10)]
  }

  function TwoDigits(n: nat): string
    requires n < 100
  {
    [DigitChar(n / 10), DigitChar(n % 10)]
  }

  /** A separator before every third digit from the right. */
  function Grouped(digits: string, separator: char): string {
    if |digits| <= 3 then digits
    else Grouped(digits[..|digits| - 3], separator) + [separator] + digits[|digits| - 3..]
  }

  /** `f"{n:,}"` */
  function WithCommas(n: int): string {
    if n < 0 then "-" + Grouped(Digits(-n), ',') else Grouped(Digits(n), ',')
  }

  function Abs(n: int): nat {
    if n < 0 then -n else n
  }

  /** The integer part as `int(whole)` reads it back: `-0` is 0. */
  function WholePart(cents: int): int {
    if cents < 0 then -(Abs(cents) / 100) else cents / 100
  }

  function Brl(cents: int): string {
    var grouped := Replace(WithCommas(WholePart(cents)), ",", ".");
    "R$ " + grouped + "," + TwoDigits(Abs(cents) % 100)
  }

  // ---------------------------------------------------------------- reading an amount

  /** A decimal literal's coefficient and how many of its digits follow the point. */
  datatype Decimal = Decimal(coefficient: int, scale: nat)

  /** `NotPlain` is every text that is not sign, digits, point, digits; what the decimal
      library makes of those (an error, an exponent, a NaN) is not modelled. */
  datatype Reading = Plain(value: Decimal) | NotPlain

  function ValueOf(digits: string): nat
    requires AllDigits(digits)
  {
    if digits == "" then 0
    else
      assert digits[|digits| - 1] in digits && forall c | c in digits[..|digits| - 1] :: c in digits;
      ValueOf(digits[..|digits| - 1]) * 10 + (digits[|digits| - 1] - '0') as nat
  }

  function Unsigned(text: string): Reading {
    var point := IndexOf(text, ".", 0);
    var whole := if point.Nowhere? then text else text[..point.index];
    var fraction := if point.Nowhere? then "" else text[point.index + 1..];
    if AllDigits(whole + fraction) && whole + fraction != "" then
      Plain(Decimal(ValueOf(whole + fraction), |fraction|))
    else NotPlain
  }

  function ReadDecimal(text: string): Reading {
    if text != "" && text[0] == '-' then
      var rest := Unsigned(text[1..]);
      if rest.Plain? then Plain(Decimal(-rest.value.coefficient, rest.value.scale)) else NotPlain
    else if text != "" && text[0] == '+' then Unsigned(text[1..])
    else Unsigned(text)
  }

  function Cleaned(text: string): string {
    var bare := Replace(Replace(text, "R$", ""), " ", "");
    if ',' in bare then Replace(Replace(bare, ".", ""), ",", ".") else bare
  }

  function Amount(text: string): Reading {
    ReadDecimal(Cleaned(text))
  }

  // ---------------------------------------------------------------- digits

  lemma {:induction false} DigitsRead(n: nat)
    ensures Digits(n) != "" && AllDigits(Digits(n)) && ValueOf(Digits(n)) == n
  {
    if n < 10 {
      assert Digits(n)[..0] == "";
    } else {
      DigitsRead(n / 10);
      assert Digits(n)[..|Digits(n)| - 1] == Digits(n / 10);
    }
  }

  lemma TwoDigitsFollow(digits: string, n: nat)
    requires AllDigits(digits) && n < 100
    ensures AllDigits(digits + TwoDigits(n)) && ValueOf(digits + TwoDigits(n)) == ValueOf(digits) * 100 + n
  {
    var all := digits + TwoDigits(n);
    var but := digits + [DigitChar(n / 10)];
    assert all[..|all| - 1] == but && but[..|but| - 1] == digits;
    assert AllDigits(but);
    assert ValueOf(but) == ValueOf(digits) * 10 + n / 10;
  }

  lemma PointFound(whole: string, rest: string)
    requires AllDigits(whole)
    ensures IndexOf(whole + "." + rest, ".", 0) == At(|whole|)
  {
    var text := whole + "." + rest;
    forall j: nat | j < |whole|
      ensures !MatchesAt(text, ".", j)
    {
      assert text[j..j + 1] == [whole[j]] && whole[j] in whole;
    }
    assert text[|whole|..|whole| + 1] == ".";
    FirstMatch(text, ".", |whole|);
  }

  lemma PlainReads(whole: string, n: nat)
    requires AllDigits(whole) && n < 100
    ensures Unsigned(whole + "." + TwoDigits(n)) == Plain(Decimal(ValueOf(whole) * 100 + n, 2))
  {
    hide IndexOf, ValueOf, AllDigits;
    var text := whole + "." + TwoDigits(n);
    PointFound(whole, TwoDigits(n));
    assert text[..|whole|] == whole && text[|whole| + 1..] == TwoDigits(n);
    TwoDigitsFollow(whole, n);
  }

  // ---------------------------------------------------------------- separators

  lemma DigitsAreNot(digits: string, c: char, put: string)
    requires AllDigits(digits) && !IsDigit(c)
    ensures Replace(digits, [c], put) == digits
  {
    ReplaceAbsent(digits, [c], put);
  }

  lemma ReplacedBeforeTail(front: string, tail: string, separator: char, put: string)
    requires AllDigits(tail) && !IsDigit(separator)
    ensures Replace(front + [separator] + tail, [separator], put) == Replace(front, [separator], put) + put + tail
  {
    hide Replace;
    DigitsAreNot(tail, separator, put);
    ReplaceOne(separator, put);
    ReplaceInParts(front + [separator], tail, separator, put);
    ReplaceInParts(front, [separator], separator, put);
  }

  lemma {:induction false} GroupsReplaced(digits: string, separator: char, put: string)
    requires AllDigits(digits) && !IsDigit(separator) && |put| <= 1
    ensures Replace(Grouped(digits, separator), [separator], put)
         == if put == "" then digits else Grouped(digits, put[0])
  {
    hide Replace;
    if |digits| <= 3 {
      DigitsAreNot(digits, separator, put);
    } else {
      var head, tail := digits[..|digits| - 3], digits[|digits| - 3..];
      assert digits == head + tail;
      assert AllDigits(head) && AllDigits(tail);
      GroupsReplaced(head, separator, put);
      ReplacedBeforeTail(Grouped(head, separator), tail, separator, put);
      if put == "" {
        assert head + put + tail == digits;
      } else {
        assert put == [put[0]];
      }
    }
  }

  lemma {:induction false} GroupsHold(digits: string, separator: char, c: char)
    requires AllDigits(digits) && !IsDigit(c) && c != separator
    ensures c !in Grouped(digits, separator)
  {
    if |digits| > 3 {
      var head, tail := digits[..|digits| - 3], digits[|digits| - 3..];
      assert AllDigits(head) && AllDigits(tail);
      GroupsHold(head, separator, c);
    }
  }

  // ---------------------------------------------------------------- there and back

  function Sign(n: int): string {
    if n < 0 then "-" else ""
  }

  function Shown(whole: int, cents: nat, separator: char): string
    requires cents < 100
  {
    Sign(whole) + Grouped(Digits(Abs(whole)), separator) + "," + TwoDigits(cents)
  }

  lemma SignedReplace(whole: int, separator: char, put: string)
    requires !IsDigit(separator) && separator != '-' && |put| <= 1
    ensures Replace(Sign(whole) + Grouped(Digits(Abs(whole)), separator), [separator], put)
         == Sign(whole) + if put == "" then Digits(Abs(whole)) else Grouped(Digits(Abs(whole)), put[0])
  {
    hide Replace, Grouped, Digits;
    DigitsRead(Abs(whole));
    GroupsReplaced(Digits(Abs(whole)), separator, put);
    ReplaceInParts(Sign(whole), Grouped(Digits(Abs(whole)), separator), separator, put);
    ReplaceAbsent(Sign(whole), [separator], put);
  }

  lemma BrlIsShown(cents: int)
    ensures Brl(cents) == "R$ " + Shown(WholePart(cents), Abs(cents) % 100, '.')
  {
    hide Replace, Grouped, Digits;
    var w := WholePart(cents);
    SignedReplace(w, ',', ".");
    assert WithCommas(w) == Sign(w) + Grouped(Digits(Abs(w)), ',') by {
      assert "" + Grouped(Digits(Abs(w)), ',') == Grouped(Digits(Abs(w)), ',');
    }
  }

  lemma ShownHolds(whole: int, cents: nat)
    requires cents < 100
    ensures var text := Shown(whole, cents, '.');
      'R' !in text && ' ' !in text && ',' in text
  {
    hide Grouped, Digits;
    DigitsRead(Abs(whole));
    var groups := Grouped(Digits(Abs(whole)), '.');
    GroupsHold(Digits(Abs(whole)), '.', 'R');
    GroupsHold(Digits(Abs(whole)), '.', ' ');
    assert Shown(whole, cents, '.')[|Sign(whole)| + |groups|] == ',';
  }

  /** The currency sign and the space go. */
  lemma Stripped(text: string)
    requires 'R' !in text && ' ' !in text
    ensures Replace(Replace("R$ " + text, "R$", ""), " ", "") == text
  {
    var all := "R$ " + text;
    assert all[0..2] == "R$" && all[2..] == " " + text;
    assert 'R' !in " " + text;
    ReplaceAbsent(" " + text, "R$", "");
    assert Replace(all, "R$", "") == "" + Replace(" " + text, "R$", "");
    hide Replace;
    assert "" + (" " + text) == " " + text;
    assert "" + text == text;
    ReplaceOne(' ', "");
    ReplaceInParts(" ", text, ' ', "");
    ReplaceAbsent(text, " ", "");
  }

  lemma SeparatorsSwapped(whole: int, cents: nat)
    requires cents < 100
    ensures Replace(Replace(Shown(whole, cents, '.'), ".", ""), ",", ".")
         == Sign(whole) + Digits(Abs(whole)) + "." + TwoDigits(cents)
  {
    hide Replace, Grouped, Digits;
    var sign, digits, tail := Sign(whole), Digits(Abs(whole)), TwoDigits(cents);
    DigitsRead(Abs(whole));
    var groups := Grouped(digits, '.');
    // the grouping dots go
    SignedReplace(whole, '.', "");
    assert Shown(whole, cents, '.') == (sign + groups) + ("," + tail);
    ReplaceInParts(sign + groups, "," + tail, '.', "");
    ReplaceAbsent("," + tail, ".", "");
    // the comma becomes the point
    var bare := sign + digits + "," + tail;
    assert bare == sign + digits + ("," + tail);
    ReplaceInParts(sign + digits, "," + tail, ',', ".");
    ReplaceAbsent(sign + digits, ",", ".");
    ReplaceInParts(",", tail, ',', ".");
    ReplaceOne(',', ".");
    ReplaceAbsent(tail, ",", ".");
  }

  lemma SignedReads(whole: int, cents: nat)
    requires cents < 100
    ensures ReadDecimal(Sign(whole) + Digits(Abs(whole)) + "." + TwoDigits(cents))
         == Plain(Decimal(if whole < 0 then whole * 100 - cents else whole * 100 + cents, 2))
  {
    hide Digits, Unsigned;
    var digits := Digits(Abs(whole));
    DigitsRead(Abs(whole));
    PlainReads(digits, cents);
    var text := Sign(whole) + digits + "." + TwoDigits(cents);
    if whole < 0 {
      assert text[1..] == digits + "." + TwoDigits(cents);
    } else {
      assert text == digits + "." + TwoDigits(cents);
      assert text[0] == digits[0] && digits[0] in digits;
    }
  }

  /** The sign goes with the integer part, so an amount between -1 and 0 loses it. */
  predicate LosesSign(cents: int) {
    -100 < cents < 0
  }

  function Displayed(cents: int): int {
    if LosesSign(cents) then -cents else cents
  }

  lemma AmountReadsBrl(cents: int)
    ensures Amount(Brl(cents)) == Plain(Decimal(Displayed(cents), 2))
  {
    hide Digits, Grouped, Replace, ReadDecimal;
    var w, c := WholePart(cents), Abs(cents) % 100;
    BrlIsShown(cents);
    ShownHolds(w, c);
    Stripped(Shown(w, c, '.'));
    SeparatorsSwapped(w, c);
    SignedReads(w, c);
    assert Cleaned(Brl(cents)) == Sign(w) + Digits(Abs(w)) + "." + TwoDigits(c);
    assert Displayed(cents) == if w < 0 then w * 100 - c else w * 100 + c;
  }

  /** What is displayed reads back as the amount it was, and as nothing else, for every
      amount but one between -0,99 and -0,01, which reads back as its opposite. */
  lemma RoundTrip(cents: int)
    ensures Amount(Brl(cents)) == Plain(Decimal(cents, 2)) <==> !LosesSign(cents)
    ensures LosesSign(cents) ==> Amount(Brl(cents)) == Plain(Decimal(-cents, 2))
  {
    AmountReadsBrl(cents);
  }

  /** Two amounts are displayed alike exactly when they are the same, or differ only by a
      lost sign; two payments never are, payments being positive. */
  lemma DisplayedAlike(a: int, b: int)
    ensures Brl(a) == Brl(b) <==> Displayed(a) == Displayed(b)
  {
    AmountReadsBrl(a);
    AmountReadsBrl(b);
    hide Replace, Digits, TwoDigits, Amount;
    if Displayed(a) == Displayed(b) && a != b {
      assert Abs(a) == Abs(b) && WholePart(a) == 0 == WholePart(b);
    }
  }

  // ---------------------------------------------------------------- the shape of what is displayed

  lemma {:induction false} GroupedLength(digits: string, separator: char)
    ensures |Grouped(digits, separator)| == |digits| + if digits == "" then 0 else (|digits| - 1) / 3
  {
    if |digits| > 3 {
      GroupedLength(digits[..|digits| - 3], separator);
    }
  }

  lemma InAllButSeparators(n: nat, j: nat)
    requires n > 0 && j < n + (n - 1) / 3 && j % 4 != 3
    ensures 0 <= j - j / 4 < n
    ensures j >= 4 ==> (j - 4) % 4 == j % 4 && (j - 4) / 4 == j / 4 - 1
  {
  }

  lemma {:induction false} GroupedAt(digits: string, separator: char, j: nat)
    requires j < |Grouped(digits, separator)|
    ensures var text := Grouped(digits, separator);
      if j % 4 == 3 then text[|text| - 1 - j] == separator
      else j - j / 4 < |digits| && text[|text| - 1 - j] == digits[|digits| - 1 - (j - j / 4)]
    decreases |digits|
  {
    GroupedLength(digits, separator);
    if j % 4 != 3 {
      InAllButSeparators(|digits|, j);
    }
    if |digits| > 3 && j >= 4 {
      var head, text := digits[..|digits| - 3], Grouped(digits, separator);
      GroupedLength(head, separator);
      GroupedAt(head, separator, j - 4);
      var front := Grouped(head, separator);
      hide Grouped;
      assert text[|text| - 1 - j] == front[|front| - 1 - (j - 4)];
    }
  }

  /** Read from the right, every fourth character is the separator and the others are the
      digits, in order. */
  lemma GroupedByThrees(digits: string, separator: char)
    ensures var text := Grouped(digits, separator);
      && |text| == |digits| + (if digits == "" then 0 else (|digits| - 1) / 3)
      && forall j: nat | j < |text| ::
           if j % 4 == 3 then text[|text| - 1 - j] == separator
           else j - j / 4 < |digits| && text[|text| - 1 - j] == digits[|digits| - 1 - (j - j / 4)]
  {
    GroupedLength(digits, separator);
    forall j: nat | j < |Grouped(digits, separator)|
      ensures var text := Grouped(digits, separator);
        if j % 4 == 3 then text[|text| - 1 - j] == separator
        else j - j / 4 < |digits| && text[|text| - 1 - j] == digits[|digits| - 1 - (j - j / 4)]
    {
      hide Grouped;
      GroupedAt(digits, separator, j);
    }
  }

  lemma DigitsOfExamples()
    ensures Digits(300) == "300" && Digits(50) == "50" && Digits(1234) == "1234" && Digits(1200) == "1200"
  {
    assert Digits(3) == "3" && Digits(30) == "30" && Digits(1) == "1" && Digits(12) == "12";
    assert Digits(120) == "120" && Digits(123) == "123";
  }

  lemma GroupsOfExamples()
    ensures Grouped("50", '.') == "50" && Grouped("1234", '.') == "1.234" && Grouped("1200", '.') == "1.200"
  {
    assert "1234"[..1] == "1" && "1234"[1..] == "234" && "1200"[..1] == "1" && "1200"[1..] == "200";
  }

  /** The documented examples, to the letter. */
  lemma AsDocumented()
    ensures Brl(1_234_56) == "R$ 1.234,56" && Brl(50_00) == "R$ 50,00"
    ensures Amount("300") == Plain(Decimal(300, 0)) && Amount("300,50") == Plain(Decimal(300_50, 2))
    ensures Amount("R$ 1.200,00") == Plain(Decimal(1_200_00, 2))
  {
    hide Digits, Grouped, Replace, ReadDecimal, Cleaned, Amount, Brl;
    DigitsOfExamples();
    GroupsOfExamples();
    BrlIsShown(1_234_56);
    BrlIsShown(50_00);
    BrlIsShown(1_200_00);
    AmountReadsBrl(1_200_00);
    TypedAmountsRead(300, 50);
    assert TwoDigits(0) == "00" && TwoDigits(50) == "50" && TwoDigits(56) == "56";
    assert Brl(1_200_00) == "R$ 1.200,00";
    assert "300" + "," + "50" == "300,50";
  }

  // ---------------------------------------------------------------- what the customer types

  lemma Unmarked(text: string)
    requires 'R' !in text && ' ' !in text
    ensures Replace(Replace(text, "R$", ""), " ", "") == text
  {
    ReplaceAbsent(text, "R$", "");
    ReplaceAbsent(text, " ", "");
  }

  /** A text of digits, points and commas is read alike with and without the currency. */
  lemma CurrencyGoes(text: string)
    requires 'R' !in text && ' ' !in text
    ensures Cleaned(text) == Cleaned("R$ " + text)
    ensures ',' !in text ==> Cleaned(text) == text
    ensures ',' in text ==> Cleaned(text) == Replace(Replace(text, ".", ""), ",", ".")
  {
    hide Replace;
    Unmarked(text);
    Stripped(text);
  }

  /** Space is not read, wherever it stands, nor is the currency in front. */
  lemma SpaceAndCurrencyAreNotRead(a: string, b: string)
    requires 'R' !in a && 'R' !in b
    ensures Amount(a + " " + b) == Amount(a + b)
    ensures Amount("R$" + a) == Amount(a)
  {
    hide Replace, ReadDecimal;
    ReplaceAbsent(a + " " + b, "R$", "");
    ReplaceAbsent(a + b, "R$", "");
    ReplaceInParts(a, b, ' ', "");
    ReplaceInParts(a + " ", b, ' ', "");
    ReplaceInParts(a, " ", ' ', "");
    ReplaceOne(' ', "");
    assert Replace(a + " ", " ", "") == Replace(a, " ", "") + "" == Replace(a, " ", "");
    assert Replace(a + " " + b, " ", "") == Replace(a + b, " ", "");
    CurrencyInFront(a);
  }

  /** Beside a comma points are not read either. */
  lemma PointsAreNotReadBesideAComma(a: string, b: string)
    requires 'R' !in a && 'R' !in b && ' ' !in a && ' ' !in b && ',' in a + b
    ensures Amount(a + "." + b) == Amount(a + b)
  {
    hide Replace, ReadDecimal;
    Unmarked(a + "." + b);
    Unmarked(a + b);
    assert ',' in a + "." + b;
    ReplaceInParts(a, b, '.', "");
    ReplaceInParts(a + ".", b, '.', "");
    ReplaceInParts(a, ".", '.', "");
    ReplaceOne('.', "");
    assert Replace(a + ".", ".", "") == Replace(a, ".", "") + "" == Replace(a, ".", "");
    assert Replace(a + "." + b, ".", "") == Replace(a + b, ".", "");
  }

  lemma CurrencyInFront(text: string)
    requires 'R' !in text
    ensures Replace("R$" + text, "R$", "") == Replace(text, "R$", "")
  {
    assert ("R$" + text)[0..2] == "R$" && ("R$" + text)[2..] == text;
    assert "" + Replace(text, "R$", "") == Replace(text, "R$", "");
  }

  lemma WholeReads(digits: string)
    requires AllDigits(digits) && digits != ""
    ensures ReadDecimal(digits) == Plain(Decimal(ValueOf(digits), 0))
  {
    forall k | 0 <= k < |digits|
      ensures IsDigit(digits[k])
    {
      assert digits[k] in digits;
    }
    if IndexOf(digits, ".", 0).At? {
      MatchedChar(digits, ".", IndexOf(digits, ".", 0).index, 0);
    }
    assert digits + "" == digits;
  }

  lemma CommaBecomesPoint(digits: string, tail: string)
    requires AllDigits(digits) && AllDigits(tail)
    ensures Replace(Replace(digits + "," + tail, ".", ""), ",", ".") == digits + "." + tail
  {
    hide Replace;
    var text := digits + "," + tail;
    assert '.' !in text;
    ReplaceAbsent(text, ".", "");
    assert text == digits + ("," + tail);
    ReplaceInParts(digits, "," + tail, ',', ".");
    ReplaceInParts(",", tail, ',', ".");
    ReplaceAbsent(digits, ",", ".");
    ReplaceAbsent(tail, ",", ".");
    ReplaceOne(',', ".");
  }

  lemma PointedReads(n: nat, cents: nat)
    requires cents < 100
    ensures Amount(Digits(n) + "." + TwoDigits(cents)) == Plain(Decimal(n * 100 + cents, 2))
    ensures Amount("R$ " + (Digits(n) + "." + TwoDigits(cents))) == Plain(Decimal(n * 100 + cents, 2))
  {
    hide Digits, Replace, ReadDecimal, Cleaned;
    DigitsRead(n);
    SignedReads(n, cents);
    var text := Digits(n) + "." + TwoDigits(cents);
    assert Sign(n) + Digits(n) == Digits(n);
    CurrencyGoes(text);
  }

  lemma CommaReads(n: nat, cents: nat)
    requires cents < 100
    ensures Amount(Digits(n) + "," + TwoDigits(cents)) == Plain(Decimal(n * 100 + cents, 2))
    ensures Amount("R$ " + (Digits(n) + "," + TwoDigits(cents))) == Plain(Decimal(n * 100 + cents, 2))
  {
    hide Digits, Replace, ReadDecimal, Cleaned;
    DigitsRead(n);
    SignedReads(n, cents);
    var text := Digits(n) + "," + TwoDigits(cents);
    assert Sign(n) + Digits(n) == Digits(n);
    assert text[|Digits(n)|] == ',';
    CurrencyGoes(text);
    CommaBecomesPoint(Digits(n), TwoDigits(cents));
  }

  /** "300", "300.50" and "300,50" read as what they say, whatever the number, with "R$ " in
      front or without. */
  lemma TypedAmountsRead(n: nat, cents: nat)
    requires cents < 100
    ensures Amount(Digits(n)) == Amount("R$ " + Digits(n)) == Plain(Decimal(n, 0))
    ensures var text := Digits(n) + "." + TwoDigits(cents);
      Amount(text) == Amount("R$ " + text) == Plain(Decimal(n * 100 + cents, 2))
    ensures var text := Digits(n) + "," + TwoDigits(cents);
      Amount(text) == Amount("R$ " + text) == Plain(Decimal(n * 100 + cents, 2))
  {
    PointedReads(n, cents);
    CommaReads(n, cents);
    hide Digits, Replace, ReadDecimal, Cleaned;
    DigitsRead(n);
    CurrencyGoes(Digits(n));
    WholeReads(Digits(n));
  }

  /** A sign or none, digits, and perhaps a point and more digits; at least one digit. */
  predicate Spells(text: string, sign: string, whole: string, fraction: string, pointed: bool) {
    && sign in {"", "+", "-"} && AllDigits(whole + fraction) && whole + fraction != ""
    && (!pointed ==> fraction == "")
    && text == sign + whole + (if pointed then "." + fraction else "")
  }

  function Said(sign: string, whole: string, fraction: string): Decimal
    requires AllDigits(whole + fraction)
  {
    var value: int := ValueOf(whole + fraction);
    Decimal(if sign == "-" then -value else value, |fraction|)
  }

  lemma DigitsInParts(whole: string, fraction: string)
    requires AllDigits(whole + fraction)
    ensures AllDigits(whole) && AllDigits(fraction)
  {
    assert forall c | c in whole :: c in whole + fraction;
    assert forall c | c in fraction :: c in whole + fraction;
  }

  lemma UnsignedReads(whole: string, fraction: string, pointed: bool)
    requires AllDigits(whole + fraction) && whole + fraction != "" && (!pointed ==> fraction == "")
    ensures Unsigned(whole + (if pointed then "." + fraction else "")) == Plain(Said("", whole, fraction))
  {
    hide ValueOf;
    DigitsInParts(whole, fraction);
    if pointed {
      var text := whole + ("." + fraction);
      assert text == whole + "." + fraction;
      PointFound(whole, fraction);
      assert text[..|whole|] == whole && text[|whole| + 1..] == fraction;
    } else {
      assert whole + "" == whole && whole + fraction == whole;
      WholeReads(whole);
      assert whole[0] in whole;
    }
  }

  lemma UnsignedIsSpelled(text: string)
    requires Unsigned(text).Plain?
    ensures exists whole, fraction, pointed :: Spells(text, "", whole, fraction, pointed)
  {
    hide ValueOf;
    var point := IndexOf(text, ".", 0);
    if point.Nowhere? {
      assert text + "" == text && "" + text + "" == text;
      assert Spells(text, "", text, "", false);
    } else {
      var whole, fraction := text[..point.index], text[point.index + 1..];
      assert text[point.index..point.index + 1] == ".";
      assert text == "" + whole + ("." + fraction);
      assert Spells(text, "", whole, fraction, true);
    }
  }

  /** What is spelled so is read as what it says ... */
  lemma SpelledIsRead(text: string, sign: string, whole: string, fraction: string, pointed: bool)
    requires Spells(text, sign, whole, fraction, pointed)
    ensures ReadDecimal(text) == Plain(Said(sign, whole, fraction))
  {
    hide ValueOf, Unsigned;
    var rest := whole + (if pointed then "." + fraction else "");
    UnsignedReads(whole, fraction, pointed);
    DigitsInParts(whole, fraction);
    assert text == sign + rest;
    if sign == "" {
      assert text == rest;
      if whole != "" {
        assert text[0] == whole[0] && whole[0] in whole;
      }
    } else {
      assert text[0] == sign[0] && text[1..] == rest;
    }
  }

  ghost predicate Spelled(text: string) {
    exists sign, whole, fraction, pointed :: Spells(text, sign, whole, fraction, pointed)
  }

  lemma SignIsSpelled(sign: string, rest: string)
    requires sign in {"", "+", "-"} && Unsigned(rest).Plain?
    ensures Spelled(sign + rest)
  {
    hide Unsigned;
    UnsignedIsSpelled(rest);
    var whole, fraction, pointed :| Spells(rest, "", whole, fraction, pointed);
    var tail := if pointed then "." + fraction else "";
    assert "" + whole == whole && sign + (whole + tail) == sign + whole + tail;
    assert Spells(sign + rest, sign, whole, fraction, pointed);
  }

  /** ... and nothing else is read. */
  lemma OnlyTheSpelledIsRead(text: string)
    ensures ReadDecimal(text).Plain? <==> Spelled(text)
  {
    hide Unsigned, ValueOf, Spells;
    if Spelled(text) {
      var sign, whole, fraction, pointed :| Spells(text, sign, whole, fraction, pointed);
      SpelledIsRead(text, sign, whole, fraction, pointed);
    }
    if ReadDecimal(text).Plain? {
      if text != "" && text[0] in {'-', '+'} {
        assert [text[0]] + text[1..] == text;
        SignIsSpelled([text[0]], text[1..]);
      } else {
        assert "" + text == text;
        SignIsSpelled("", text);
      }
    }
  }
}
