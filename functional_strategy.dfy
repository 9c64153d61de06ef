/**
  The functional variant: a payment-method key selects a factory function,
  the factory returns one of five module-level strategy functions, and a
  context object holds one such function and calls it for each payment.

  The five strategy functions are Dafny functions from the amount to the line
  they print. A reference to one of them (what the factories return and the
  context holds) is a `PaymentStrategyFn` value naming its method; calling it
  runs that function.
 */
module FunctionalStrategy {
  import opened Payments

  function CashPaymentStrategy(amount: int): string { Message(Cash, amount) }

  function CreditCardPaymentStrategy(amount: int): string { Message(CreditCard, amount) }

  function DebitCardPaymentStrategy(amount: int): string { Message(DebitCard, amount) }

  function PaypalPaymentStrategy(amount: int): string { Message(PayPal, amount) }

  function BankTransferPaymentStrategy(amount: int): string { Message(BankTransfer, amount) }

  /** A reference to one of the five module-level strategy functions. */
  datatype PaymentStrategyFn = PaymentStrategyFn(paymentMethod: PaymentMethod)
  {
    /** Calling the referenced function with `amount`: the line it prints. */
    function Call(amount: int): string
    {
      match paymentMethod
      case CreditCard => CreditCardPaymentStrategy(amount)
      case DebitCard => DebitCardPaymentStrategy(amount)
      case PayPal => PaypalPaymentStrategy(amount)
      case BankTransfer => BankTransferPaymentStrategy(amount)
      case Cash => CashPaymentStrategy(amount)
    }
  }

  /** The factories: each returns the one module-level function of its method. */
  function CreditCardPaymentStrategyFactory(): (fn: PaymentStrategyFn)
    ensures forall amount :: fn.Call(amount) == CreditCardPaymentStrategy(amount)
  {
    PaymentStrategyFn(CreditCard)
  }

  function DebitCardPaymentStrategyFactory(): (fn: PaymentStrategyFn)
    ensures forall amount :: fn.Call(amount) == DebitCardPaymentStrategy(amount)
  {
    PaymentStrategyFn(DebitCard)
  }

  function BankTransferPaymentStrategyFactory(): (fn: PaymentStrategyFn)
    ensures forall amount :: fn.Call(amount) == BankTransferPaymentStrategy(amount)
  {
    PaymentStrategyFn(BankTransfer)
  }

  function CashPaymentStrategyFactory(): (fn: PaymentStrategyFn)
    ensures forall amount :: fn.Call(amount) == CashPaymentStrategy(amount)
  {
    PaymentStrategyFn(Cash)
  }

  function PaypalPaymentStrategyFactory(): (fn: PaymentStrategyFn)
    ensures forall amount :: fn.Call(amount) == PaypalPaymentStrategy(amount)
  {
    PaymentStrategyFn(PayPal)
  }

  /** `PaymentStrategyFactoryFn`: a factory function, called with nothing. */
  type PaymentStrategyFactoryFn = () -> PaymentStrategyFn

  /**
    `read_payment`: indexes the key-to-factory dict and calls the factory it
    finds. An unknown key is a `KeyError` raised before any factory runs.
   */
  function ReadPayment(paymentMethod: string): (r: Lookup<PaymentStrategyFn>)
    ensures r.Found? <==> MethodNamed(paymentMethod).Some?
    ensures r.Found? ==> r.value.paymentMethod == MethodNamed(paymentMethod).value
    ensures r.KeyError? ==> r.key == paymentMethod
  {
    var availableMethods: map<string, PaymentStrategyFactoryFn> := map[
      "credit_card" := CreditCardPaymentStrategyFactory,
      "debit_card" := DebitCardPaymentStrategyFactory,
      "paypal" := PaypalPaymentStrategyFactory,
      "bank_transfer" := BankTransferPaymentStrategyFactory,
      "cash" := CashPaymentStrategyFactory
    ];
    if paymentMethod in availableMethods then Found(availableMethods[paymentMethod]())
    else KeyError(paymentMethod)
  }

  /**
    Every key of the enumeration resolves to the strategy function of its
    method, which prints exactly "Paid <amount> with <label>", and a reader of
    that line gets back the method and the amount.
   */
  lemma ReadPaymentPays(m: PaymentMethod, amount: int)
    ensures ReadPayment(Key(m)).Found?
    ensures ReadPayment(Key(m)).value.Call(amount) == "Paid " + Decimal(amount) + " with " + Label(m)
    ensures ParseLine(ReadPayment(Key(m)).value.Call(amount)) == Some(Receipt(m, amount))
  {
    assert MethodNamed(Key(m)) == Some(m);
    MessageRoundTrip(m, amount);
  }

  /** Two different keys give strategy functions whose printed lines never coincide. */
  lemma ReadPaymentDistinct(k1: string, k2: string, a1: int, a2: int)
    requires ReadPayment(k1).Found? && ReadPayment(k2).Found? && k1 != k2
    ensures ReadPayment(k1).value.Call(a1) != ReadPayment(k2).value.Call(a2)
  {
    var m1, m2 := MethodNamed(k1).value, MethodNamed(k2).value;
    assert Key(m1) == k1 && Key(m2) == k2;
    ReadPaymentPays(m1, a1);
    ReadPaymentPays(m2, a2);
  }

  /**
    `PaymentStrategyContext`: holds exactly one strategy function, never unset.
    `output` stands for standard output: the lines printed through this
    context, oldest first.
   */
  class PaymentStrategyContext {
    var paymentStrategyFn: PaymentStrategyFn
    var output: seq<string>

    constructor (paymentStrategyFn: PaymentStrategyFn)
      ensures this.paymentStrategyFn == paymentStrategyFn
      ensures output == []
    {
      this.paymentStrategyFn := paymentStrategyFn;
      output := [];
    }

    /** `make_payment`: calls the held function once with `amount`, unvalidated. */
    method MakePayment(amount: int)
      modifies this`output
      ensures output == old(output) + [paymentStrategyFn.Call(amount)]
      ensures paymentStrategyFn == old(paymentStrategyFn)
    {
      output := output + [paymentStrategyFn.Call(amount)];
    }

    /** The `payment_strategy` property getter. */
    method GetPaymentStrategy() returns (fn: PaymentStrategyFn)
      ensures fn == paymentStrategyFn
    {
      fn := paymentStrategyFn;
    }

    /** The `payment_strategy` property setter: replaces the held function. */
    method SetPaymentStrategy(newPaymentStrategy: PaymentStrategyFn)
      modifies this`paymentStrategyFn
      ensures paymentStrategyFn == newPaymentStrategy
    {
      paymentStrategyFn := newPaymentStrategy;
    }
  }

  /**
    A context built with the function of `a` and rebound to that of `b` pays
    with `b`: the getter returns `b`'s function and the one printed line names
    `b`, never `a`.
   */
  method RebindThenPay(a: PaymentStrategyFn, b: PaymentStrategyFn, amount: int)
    returns (held: PaymentStrategyFn, output: seq<string>)
    ensures held == b
    ensures output == [b.Call(amount)]
    ensures a != b ==> output[0] != a.Call(amount)
  {
    var context := new PaymentStrategyContext(a);
    context.SetPaymentStrategy(b);
    held := context.GetPaymentStrategy();
    context.MakePayment(amount);
    output := context.output;
    if a != b && output[0] == a.Call(amount) {
      MessageInjective(a.paymentMethod, amount, b.paymentMethod, amount);
    }
  }

  /** `main`: four payments through one context, rebinding between them. */
  method Run() returns (output: seq<string>)
    ensures output == ["Paid 100 with cash", "Paid 200 with PayPal",
                       "Paid 300 with credit card", "Paid 400 with bank transfer"]
  {
    var creditCardStrategy := ReadPayment(Key(CreditCard)).value;
    var paypalStrategy := ReadPayment(Key(PayPal)).value;
    var cashStrategy := ReadPayment(Key(Cash)).value;
    var bankTransferStrategy := ReadPayment(Key(BankTransfer)).value;
    assert cashStrategy.paymentMethod == Cash && paypalStrategy.paymentMethod == PayPal;
    assert creditCardStrategy.paymentMethod == CreditCard;
    assert bankTransferStrategy.paymentMethod == BankTransfer;

    var paymentContext := new PaymentStrategyContext(cashStrategy);
    paymentContext.MakePayment(100);

    paymentContext.SetPaymentStrategy(paypalStrategy);
    paymentContext.MakePayment(200);

    paymentContext.SetPaymentStrategy(creditCardStrategy);
    paymentContext.MakePayment(300);

    paymentContext.SetPaymentStrategy(bankTransferStrategy);
    paymentContext.MakePayment(400);

    output := paymentContext.output;
    DemoMessages();
  }
}
