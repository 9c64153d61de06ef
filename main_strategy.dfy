/**
  The factory-only variant: a payment-method key selects a strategy class,
  which is instantiated on the spot, and a context object holds one strategy
  and forwards payments to it.

  The five `*Payment` classes carry no state, so an instance is modelled by
  the payment method of its class: the fresh object `factory` builds is
  indistinguishable from any other instance of that class.
 */
module MainStrategy {
  import opened Payments

  /** An instance of one of the five `*Payment` classes. */
  datatype PaymentStrategy = PaymentStrategy(paymentMethod: PaymentMethod)
  {
    /** The line `pay(amount)` prints. */
    function Pay(amount: int): string
    {
      Message(paymentMethod, amount)
    }
  }

  /**
    `factory`: indexes the key-to-class dict and instantiates the class it
    finds. An unknown key is a `KeyError`; nothing is constructed.
   */
  function Factory(paymentMethod: string): (r: Lookup<PaymentStrategy>)
    ensures r.Found? <==> MethodNamed(paymentMethod).Some?
    ensures r.Found? ==> r.value.paymentMethod == MethodNamed(paymentMethod).value
    ensures r.KeyError? ==> r.key == paymentMethod
  {
    var availableMethods := map[
      "credit_card" := CreditCard,
      "debit_card" := DebitCard,
      "paypal" := PayPal,
      "bank_transfer" := BankTransfer,
      "cash" := Cash
    ];
    if paymentMethod in availableMethods then Found(PaymentStrategy(availableMethods[paymentMethod]))
    else KeyError(paymentMethod)
  }

  /**
    Every key of the enumeration gives an instance that prints exactly
    "Paid <amount> with <label>", and a reader of that line gets back the
    method and the amount.
   */
  lemma FactoryPays(m: PaymentMethod, amount: int)
    ensures Factory(Key(m)).Found?
    ensures Factory(Key(m)).value.Pay(amount) == "Paid " + Decimal(amount) + " with " + Label(m)
    ensures ParseLine(Factory(Key(m)).value.Pay(amount)) == Some(Receipt(m, amount))
  {
    assert MethodNamed(Key(m)) == Some(m);
    MessageRoundTrip(m, amount);
  }

  /** Two different keys give instances whose printed lines never coincide. */
  lemma FactoryDistinct(k1: string, k2: string, a1: int, a2: int)
    requires Factory(k1).Found? && Factory(k2).Found? && k1 != k2
    ensures Factory(k1).value.Pay(a1) != Factory(k2).value.Pay(a2)
  {
    var m1, m2 := MethodNamed(k1).value, MethodNamed(k2).value;
    assert Key(m1) == k1 && Key(m2) == k2;
    FactoryPays(m1, a1);
    FactoryPays(m2, a2);
  }

  /**
    `PaymentContext`: holds exactly one strategy, never unset. `output`
    stands for standard output: the lines printed through this context,
    oldest first.
   */
  class PaymentContext {
    var paymentStrategy: PaymentStrategy
    var output: seq<string>

    constructor (paymentStrategy: PaymentStrategy)
      ensures this.paymentStrategy == paymentStrategy
      ensures output == []
    {
      this.paymentStrategy := paymentStrategy;
      output := [];
    }

    /** `make_payment`: the held strategy prints one line for `amount`, unvalidated. */
    method MakePayment(amount: int)
      modifies this`output
      ensures output == old(output) + [paymentStrategy.Pay(amount)]
      ensures paymentStrategy == old(paymentStrategy)
    {
      output := output + [paymentStrategy.Pay(amount)];
    }

    /** The `payment_strategy` property getter. */
    method GetPaymentStrategy() returns (s: PaymentStrategy)
      ensures s == paymentStrategy
    {
      s := paymentStrategy;
    }

    /** The `payment_strategy` property setter: replaces the held strategy. */
    method SetPaymentStrategy(newPaymentStrategy: PaymentStrategy)
      modifies this`paymentStrategy
      ensures paymentStrategy == newPaymentStrategy
    {
      paymentStrategy := newPaymentStrategy;
    }
  }

  /**
    A context built with `a` and rebound to `b` pays with `b`: the getter
    returns `b` and the one printed line is `b`'s, never `a`'s.
   */
  method RebindThenPay(a: PaymentStrategy, b: PaymentStrategy, amount: int)
    returns (held: PaymentStrategy, output: seq<string>)
    ensures held == b
    ensures output == [b.Pay(amount)]
    ensures a != b ==> output[0] != a.Pay(amount)
  {
    var context := new PaymentContext(a);
    context.SetPaymentStrategy(b);
    held := context.GetPaymentStrategy();
    context.MakePayment(amount);
    output := context.output;
    if a != b && output[0] == a.Pay(amount) {
      MessageInjective(a.paymentMethod, amount, b.paymentMethod, amount);
    }
  }

  /** `Main.run`: four payments through one context, rebinding between them. */
  method Run() returns (output: seq<string>)
    ensures output == ["Paid 100 with cash", "Paid 200 with PayPal",
                       "Paid 300 with credit card", "Paid 400 with bank transfer"]
  {
    var creditCardPayment := Factory(Key(CreditCard)).value;
    var paypalPayment := Factory(Key(PayPal)).value;
    var cashPayment := Factory(Key(Cash)).value;
    var bankTransferPayment := Factory(Key(BankTransfer)).value;

    var paymentContext := new PaymentContext(cashPayment);
    paymentContext.MakePayment(100);

    paymentContext.SetPaymentStrategy(paypalPayment);
    paymentContext.MakePayment(200);

    paymentContext.SetPaymentStrategy(creditCardPayment);
    paymentContext.MakePayment(300);

    paymentContext.SetPaymentStrategy(bankTransferPayment);
    paymentContext.MakePayment(400);

    output := paymentContext.output;
    DemoMessages();
  }
}
