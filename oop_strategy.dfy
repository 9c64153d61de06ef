/**
  The class-based variant: a payment-method key selects a factory object, the
  factory makes a strategy object, and a context object holds one strategy and
  forwards payments to it.

  Strategy and factory objects carry no state, so each is modelled by the
  payment method it stands for; the fresh instance `get_payment_strategy`
  builds on every call is indistinguishable from any other of its class.
 */
module OopStrategy {
  import opened Payments

  /** One of the five `*PaymentStrategy` classes. */
  datatype PaymentStrategy = PaymentStrategy(paymentMethod: PaymentMethod)
  {
    /** The line `pay(amount)` prints. */
    function Pay(amount: int): string
    {
      Message(paymentMethod, amount)
    }
  }

  /** One of the five `*PaymentStrategyFactory` classes. */
  datatype PaymentStrategyFactory = PaymentStrategyFactory(paymentMethod: PaymentMethod)
  {
    /** A new strategy of the factory's own method. */
    function GetPaymentStrategy(): PaymentStrategy
    {
      PaymentStrategy(paymentMethod)
    }
  }

  /**
    `read_payment`: builds the key-to-factory dict and indexes it with the key.
    An unknown key is a `KeyError`; no default factory is substituted.
   */
  function ReadPayment(paymentMethod: string): (r: Lookup<PaymentStrategyFactory>)
    ensures r.Found? <==> MethodNamed(paymentMethod).Some?
    ensures r.Found? ==> r.value.paymentMethod == MethodNamed(paymentMethod).value
    ensures r.KeyError? ==> r.key == paymentMethod
  {
    var availableMethods := map[
      "credit_card" := PaymentStrategyFactory(CreditCard),
      "debit_card" := PaymentStrategyFactory(DebitCard),
      "paypal" := PaymentStrategyFactory(PayPal),
      "bank_transfer" := PaymentStrategyFactory(BankTransfer),
      "cash" := PaymentStrategyFactory(Cash)
    ];
    if paymentMethod in availableMethods then Found(availableMethods[paymentMethod])
    else KeyError(paymentMethod)
  }

  /**
    Every key of the enumeration resolves, and the strategy its factory makes
    prints exactly "Paid <amount> with <label>" for that method; a reader of
    that line gets back the method and the amount.
   */
  lemma ReadPaymentPays(m: PaymentMethod, amount: int)
    ensures ReadPayment(Key(m)).Found?
    ensures ReadPayment(Key(m)).value.GetPaymentStrategy().Pay(amount)
            == "Paid " + Decimal(amount) + " with " + Label(m)
    ensures ParseLine(ReadPayment(Key(m)).value.GetPaymentStrategy().Pay(amount))
            == Some(Receipt(m, amount))
  {
    assert MethodNamed(Key(m)) == Some(m);
    MessageRoundTrip(m, amount);
  }

  /** Two different keys give strategies whose printed lines never coincide. */
  lemma ReadPaymentDistinct(k1: string, k2: string, a1: int, a2: int)
    requires ReadPayment(k1).Found? && ReadPayment(k2).Found? && k1 != k2
    ensures ReadPayment(k1).value.GetPaymentStrategy().Pay(a1)
            != ReadPayment(k2).value.GetPaymentStrategy().Pay(a2)
  {
    var m1, m2 := MethodNamed(k1).value, MethodNamed(k2).value;
    assert Key(m1) == k1 && Key(m2) == k2;
    ReadPaymentPays(m1, a1);
    ReadPaymentPays(m2, a2);
  }

  /**
    `PaymentStrategyContext`: holds exactly one strategy, never unset.
    `output` stands for standard output: the lines printed through this
    context, oldest first.
   */
  class PaymentStrategyContext {
    var paymentStrategy: PaymentStrategy
    var output: seq<string>

    constructor (paymentStrategy: PaymentStrategy)
      ensures this.paymentStrategy == paymentStrategy
      ensures output == []
    {
      this.paymentStrategy := paymentStrategy;
      output := [];
    }

    /** `make_payment`: the held strategy prints one line for `amount`, unvalidated. */
    method MakePayment(amount: int)
      modifies this`output
      ensures output == old(output) + [paymentStrategy.Pay(amount)]
      ensures paymentStrategy == old(paymentStrategy)
    {
      output := output + [paymentStrategy.Pay(amount)];
    }

    /** The `payment_strategy` property getter. */
    method GetPaymentStrategy() returns (s: PaymentStrategy)
      ensures s == paymentStrategy
    {
      s := paymentStrategy;
    }

    /** The `payment_strategy` property setter: replaces the held strategy. */
    method SetPaymentStrategy(newPaymentStrategy: PaymentStrategy)
      modifies this`paymentStrategy
      ensures paymentStrategy == newPaymentStrategy
    {
      paymentStrategy := newPaymentStrategy;
    }
  }

  /**
    A context built with `a` and rebound to `b` pays with `b`: the getter
    returns `b` and the one printed line names `b`'s method, never `a`'s.
   */
  method RebindThenPay(a: PaymentStrategy, b: PaymentStrategy, amount: int)
    returns (held: PaymentStrategy, output: seq<string>)
    ensures held == b
    ensures output == [b.Pay(amount)]
    ensures a != b ==> output[0] != a.Pay(amount)
  {
    var context := new PaymentStrategyContext(a);
    context.SetPaymentStrategy(b);
    held := context.GetPaymentStrategy();
    context.MakePayment(amount);
    output := context.output;
    if a != b && output[0] == a.Pay(amount) {
      MessageInjective(a.paymentMethod, amount, b.paymentMethod, amount);
    }
  }

  /** `Main.run`: four payments through one context, rebinding between them. */
  method Run() returns (output: seq<string>)
    ensures output == ["Paid 100 with cash", "Paid 200 with PayPal",
                       "Paid 300 with credit card", "Paid 400 with bank transfer"]
  {
    var creditCardPaymentStrategy := ReadPayment(Key(CreditCard)).value.GetPaymentStrategy();
    var paypalPaymentStrategy := ReadPayment(Key(PayPal)).value.GetPaymentStrategy();
    var cashPaymentStrategy := ReadPayment(Key(Cash)).value.GetPaymentStrategy();
    var bankTransferPaymentStrategy := ReadPayment(Key(BankTransfer)).value.GetPaymentStrategy();

    var paymentContext := new PaymentStrategyContext(cashPaymentStrategy);
    paymentContext.MakePayment(100);

    paymentContext.SetPaymentStrategy(paypalPaymentStrategy);
    paymentContext.MakePayment(200);

    paymentContext.SetPaymentStrategy(creditCardPaymentStrategy);
    paymentContext.MakePayment(300);

    paymentContext.SetPaymentStrategy(bankTransferPaymentStrategy);
    paymentContext.MakePayment(400);

    output := paymentContext.output;
    DemoMessages();
  }
}
