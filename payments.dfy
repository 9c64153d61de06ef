/**
  What the three implementations share: the closed set of payment methods,
  the string keys of the `StrEnum` that names them, the label each strategy
  prints, and the line `f"Paid {amount} with <label>"` a strategy emits.

  Printing is modelled by the line itself (a `string`); the contexts of the
  three variants append these lines to an output log. `ParseLine` is the
  reader's side of that line: it recovers the method and the amount, which
  shows that no two payments print the same text.
 */
module Payments {

  datatype Option<+T> = None | Some(value: T)

  /** Result of indexing a Python dict: the value, or `KeyError(key)`. */
  datatype Lookup<+T> = Found(value: T) | KeyError(key: string)

  /** The five payment methods (one strategy class or function each). */
  datatype PaymentMethod = CreditCard | DebitCard | PayPal | BankTransfer | Cash

  /** What a reader of a printed line learns: which method paid how much. */
  datatype Receipt = Receipt(paymentMethod: PaymentMethod, amount: int)

  /**
    The value of the method's member in the `StrEnum` that names the methods
    (`AvailablePaymentStrategyMethods` in the class-based and functional
    variants, `AvailablePaymentMethods` in the factory-only one).
   */
  function Key(m: PaymentMethod): string
  {
    match m
    case CreditCard => "credit_card"
    case DebitCard => "debit_card"
    case PayPal => "paypal"
    case BankTransfer => "bank_transfer"
    case Cash => "cash"
  }

  /** The method a key names, if any; the inverse of `Key`. */
  function MethodNamed(key: string): (r: Option<PaymentMethod>)
    ensures r.Some? ==> Key(r.value) == key
    ensures forall m :: Key(m) == key ==> r == Some(m)
  {
    if key == "credit_card" then Some(CreditCard)
    else if key == "debit_card" then Some(DebitCard)
    else if key == "paypal" then Some(PayPal)
    else if key == "bank_transfer" then Some(BankTransfer)
    else if key == "cash" then Some(Cash)
    else None
  }

  /** The words a strategy prints after "with". */
  function Label(m: PaymentMethod): string
  {
    match m
    case CreditCard => "credit card"
    case DebitCard => "debit card"
    case PayPal => "PayPal"
    case BankTransfer => "bank transfer"
    case Cash => "cash"
  }

  /** The inverse of `Label`. */
  function MethodLabelled(text: string): (r: Option<PaymentMethod>)
    ensures r.Some? ==> Label(r.value) == text
    ensures forall m :: Label(m) == text ==> r == Some(m)
  {
    if text == "credit card" then Some(CreditCard)
    else if text == "debit card" then Some(DebitCard)
    else if text == "PayPal" then Some(PayPal)
    else if text == "bank transfer" then Some(BankTransfer)
    else if text == "cash" then Some(Cash)
    else None
  }

  // ---------------------------------------------------------------------------
  // Decimal rendering of an int, as `str(amount)` / `f"{amount}"` does it

  predicate IsDigit(c: char) { '0' <= c <= '9' }

  predicate AllDigits(s: string) { forall i :: 0 <= i < |s| ==> IsDigit(s[i]) }

  predicate NoSpace(s: string) { forall i :: 0 <= i < |s| ==> s[i] != ' ' }

  function DigitChar(d: nat): (c: char)
    requires d < 10
    ensures IsDigit(c) && c as int - '0' as int == d
  {
    ('0' as int + d) as char
  }

  /** The digits of `n`, most significant first, without leading zeros. */
  function Digits(n: nat): (s: string)
    ensures |s| > 0 && AllDigits(s)
    ensures s[0] == '0' ==> n == 0
    ensures |s| == 1 <==> n < 10
  {
    if n < 10 then [DigitChar(n)] else Digits(n / 10) + [DigitChar(n % 10)]
  }

  /** `str(n)` for a Python int: a minus sign for negatives, then the digits. */
  function Decimal(n: int): (s: string)
    ensures |s| > 0 && NoSpace(s)
    ensures s[0] == '-' <==> n < 0
  {
    if n < 0 then "-" + Digits(-n) else Digits(n)
  }

  /** The value of a string of decimal digits. */
  function DigitsValue(s: string): nat
    requires AllDigits(s)
  {
    if s == [] then 0 else DigitsValue(s[..|s| - 1]) * 10 + (s[|s| - 1] as int - '0' as int)
  }

  /** `int(s)` restricted to what `str` produces: an optional minus, then digits. */
  function ParseDecimal(s: string): Option<int>
  {
    if |s| > 1 && s[0] == '-' && AllDigits(s[1..]) then Some(0 - DigitsValue(s[1..]))
    else if |s| > 0 && AllDigits(s) then Some(DigitsValue(s))
    else None
  }

  lemma {:induction false} DigitsRoundTrip(n: nat)
    ensures DigitsValue(Digits(n)) == n
  {
    if n >= 10 {
      var s := Digits(n);
      assert s[..|s| - 1] == Digits(n / 10);
      DigitsRoundTrip(n / 10);
    }
  }

  /** Reading back the rendering of an amount gives the amount. */
  lemma DecimalRoundTrip(n: int)
    ensures ParseDecimal(Decimal(n)) == Some(n)
  {
    if n < 0 {
      ParseSigned(Digits(-n));
      DigitsRoundTrip(-n);
    } else {
      ParseUnsigned(Digits(n));
      DigitsRoundTrip(n);
    }
  }

  lemma ParseSigned(digits: string)
    requires |digits| > 0 && AllDigits(digits)
    ensures ParseDecimal("-" + digits) == Some(0 - DigitsValue(digits))
  {
  }

  lemma ParseUnsigned(digits: string)
    requires |digits| > 0 && AllDigits(digits)
    ensures ParseDecimal(digits) == Some(DigitsValue(digits))
  {
  }

  // ---------------------------------------------------------------------------
  // The printed line and its reader

  /** The line every strategy prints: `f"Paid {amount} with {label}"`. */
  function Message(m: PaymentMethod, amount: int): string
  {
    "Paid " + Decimal(amount) + " with " + Label(m)
  }

  /** Index of the first space in `s`, or `|s|` when there is none. */
  function SpaceIndex(s: string): (i: nat)
    ensures i <= |s| && NoSpace(s[..i])
    ensures i < |s| ==> s[i] == ' '
  {
    if s == [] || s[0] == ' ' then 0 else 1 + SpaceIndex(s[1..])
  }

  /** Reads "Paid <amount> with <label>" back into the method and the amount. */
  function ParseLine(line: string): Option<Receipt>
  {
    if |line| < 5 || line[..5] != "Paid " then None
    else
      var rest := line[5..];
      var i := SpaceIndex(rest);
      var tail := rest[i..];
      if |tail| < 6 || tail[..6] != " with " then None
      else
        match (ParseDecimal(rest[..i]), MethodLabelled(tail[6..]))
        case (Some(amount), Some(m)) => Some(Receipt(m, amount))
        case _ => None
  }

  lemma {:induction false} SpaceIndexAfter(x: string, y: string)
    requires NoSpace(x) && |y| > 0 && y[0] == ' '
    ensures SpaceIndex(x + y) == |x|
  {
    if x != [] {
      assert (x + y)[1..] == x[1..] + y;
      SpaceIndexAfter(x[1..], y);
    } else {
      assert x + y == y;
    }
  }

  /** A reader of the printed line recovers exactly the method and the amount. */
  lemma MessageRoundTrip(m: PaymentMethod, amount: int)
    ensures ParseLine(Message(m, amount)) == Some(Receipt(m, amount))
  {
    var d, text := Decimal(amount), Label(m);
    assert Message(m, amount) == "Paid " + d + " with " + text;
    SplitLine(d, text);
    DecimalRoundTrip(amount);
    assert MethodLabelled(text) == Some(m);
  }

  /** How `ParseLine` takes apart a line whose amount part has no space. */
  lemma SplitLine(d: string, text: string)
    requires NoSpace(d)
    ensures ParseLine("Paid " + d + " with " + text)
            == match (ParseDecimal(d), MethodLabelled(text))
               case (Some(amount), Some(m)) => Some(Receipt(m, amount))
               case _ => None
  {
    var line := "Paid " + d + " with " + text;
    var tail := " with " + text;
    var rest := line[5..];
    assert line[..5] == "Paid " && rest == d + tail by {
      assert line == "Paid " + (d + tail);
    }
    SpaceIndexAfter(d, tail);
    assert rest[..|d|] == d && rest[|d|..] == tail;
    assert tail[..6] == " with " && tail[6..] == text;
  }

  // The four lines the demonstration drivers print, one lemma each (checking
  // all four literals in one proof is much costlier than the four apart).

  lemma CashLine()
    ensures Message(Cash, 100) == "Paid 100 with cash"
  {
  }

  lemma PayPalLine()
    ensures Message(PayPal, 200) == "Paid 200 with PayPal"
  {
  }

  lemma CreditCardLine()
    ensures Message(CreditCard, 300) == "Paid 300 with credit card"
  {
  }

  lemma BankTransferLine()
    ensures Message(BankTransfer, 400) == "Paid 400 with bank transfer"
  {
  }

  lemma DemoMessages()
    ensures Message(Cash, 100) == "Paid 100 with cash"
    ensures Message(PayPal, 200) == "Paid 200 with PayPal"
    ensures Message(CreditCard, 300) == "Paid 300 with credit card"
    ensures Message(BankTransfer, 400) == "Paid 400 with bank transfer"
  {
    CashLine();
    PayPalLine();
    CreditCardLine();
    BankTransferLine();
  }

  /** Different payments print different lines: method and amount are both visible. */
  lemma MessageInjective(m1: PaymentMethod, a1: int, m2: PaymentMethod, a2: int)
    requires Message(m1, a1) == Message(m2, a2)
    ensures m1 == m2 && a1 == a2
  {
    MessageRoundTrip(m1, a1);
    MessageRoundTrip(m2, a2);
  }
}
