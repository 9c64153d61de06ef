# Strategy-pattern payments, modelled in Dafny

The repository shows one mechanism written three times: paying an amount with
a payment method chosen at run time.

- A closed set of five payment-method keys (`credit_card`, `debit_card`,
  `paypal`, `bank_transfer`, `cash`) indexes a dict.
- The entry found yields a payment strategy.
- The strategy's only behaviour is to print `Paid <amount> with <label>`.
- A payment context holds one strategy. Its constructor sets it, a property
  setter replaces it and a getter reads it. `make_payment(amount)` forwards the
  amount, unchanged, to the strategy it holds.
- A demonstration driver makes four payments through one context and rebinds
  the strategy between them.

The three variants differ only in what the dict holds:

| source file | the dict maps a key to | Dafny module |
|---|---|---|
| `OOP-strategy-pattern-implementation.py` | a factory object, whose `get_payment_strategy` builds a strategy object | `OopStrategy` (`oop_strategy.dfy`) |
| `functional-strategy-pattern-implementation.py` | a factory function, which returns a module-level strategy function | `FunctionalStrategy` (`functional_strategy.dfy`) |
| `main.py` | a strategy class, which is instantiated on the spot | `MainStrategy` (`main_strategy.dfy`) |

What all three share lives in `Payments` (`payments.dfy`):

- the `PaymentMethod` datatype;
- the `StrEnum` key of each method (`Key`, with its inverse `MethodNamed`);
- the label each strategy prints (`Label`, with its inverse `MethodLabelled`);
- the decimal rendering of the amount (`Decimal`);
- the printed line (`Message`).

A printed line has a partner, `ParseLine`, which reads a line back into the
method and the amount (a `Receipt`). The round trip `ParseLine(Message(m, a)) ==
Some(Receipt(m, a))` is proved for every method and every integer amount. It is
what makes "different keys print observably different lines" a theorem rather
than an inspection of five literals.

How the Python constructs are modelled:

- **Printing.** Each context has an `output: seq<string>` field, the lines
  printed through it, oldest first. `MakePayment` appends exactly one line.
- **Dict indexing.** Looking up a key gives a `Lookup` value: `Found(v)`, or
  `KeyError(key)` for a key outside the table. No default is substituted. The
  enum type hints are not enforced at run time, and `StrEnum` members hash as
  their string values, so the lookups take a plain `string`.
- **Strategies.** Strategy and factory objects carry no state, so each is a
  datatype value naming its payment method.
- **The context.** Each context is a Dafny `class` whose methods update its
  fields in place.
- **The drivers.** `Run` follows its driver statement by statement. Its
  contract is the exact four-line output.

Each driver builds its context with the cash strategy, pays once, then makes
three setter calls (PayPal, credit card, bank transfer), each followed by one
payment.

## Model

| member | source | states |
|---|---|---|
| Payments.Key | OOP-strategy-pattern-implementation.py:67-72 | The `StrEnum` value of each method. The same five values appear at `functional-strategy-pattern-implementation.py:55-60` and `main.py:52-57`. The function only computes; `MethodNamed` states that it is inverted in both directions, so the five values are pairwise distinct. |
| Payments.Label | OOP-strategy-pattern-implementation.py:11-33 | The words each strategy prints after "with". The function only computes; `MethodLabelled` states that it is inverted in both directions, so the five labels are pairwise distinct. |
| Payments.Message | OOP-strategy-pattern-implementation.py:11-33 | The line `f"Paid {amount} with <label>"` that every strategy prints. The function only computes; `MessageRoundTrip` states that `ParseLine` reads back exactly the method and the amount, and `MessageInjective` that different payments print different lines. |
| Payments.MethodNamed | OOP-strategy-pattern-implementation.py:67-72 | The five `StrEnum` values name exactly one method each. A string that is not one of them names none. This is the inverse of `Key` in both directions. |
| Payments.MethodLabelled | OOP-strategy-pattern-implementation.py:11-33 | The label printed by each strategy determines the method: labels are pairwise distinct. This is the inverse of `Label` in both directions. |
| Payments.Digits | OOP-strategy-pattern-implementation.py:13 | The decimal digits of a natural amount are non-empty and all digits. There is no leading zero except for 0 itself. There is a single digit exactly below 10. |
| Payments.Decimal | OOP-strategy-pattern-implementation.py:13 | `f"{amount}"` is non-empty and contains no space. It starts with `-` exactly when the amount is negative. |
| Payments.DigitsRoundTrip | OOP-strategy-pattern-implementation.py:13 | Reading back the digits of a natural number gives the number. |
| Payments.DecimalRoundTrip | OOP-strategy-pattern-implementation.py:13 | Reading back the rendering of any integer amount, negative ones included, gives the amount. |
| Payments.MessageRoundTrip | OOP-strategy-pattern-implementation.py:11-33 | A reader of `Paid <amount> with <label>` recovers exactly the method and the amount, for every method and every integer. |
| Payments.MessageInjective | OOP-strategy-pattern-implementation.py:11-33 | Two payments print the same line only if they have the same method and the same amount. |
| Payments.DemoMessages | OOP-strategy-pattern-implementation.py:124-133 | The four lines the drivers print are literally `Paid 100 with cash`, `Paid 200 with PayPal`, `Paid 300 with credit card` and `Paid 400 with bank transfer`. |
| OopStrategy.PaymentStrategy.Pay | OOP-strategy-pattern-implementation.py:11-33 | `pay` of the five `*PaymentStrategy` classes: the line printed for the strategy's own method. It only computes; `ReadPaymentPays` states the exact line and that it reads back, and `ReadPaymentDistinct` that different methods print different lines. |
| OopStrategy.PaymentStrategyFactory.GetPaymentStrategy | OOP-strategy-pattern-implementation.py:42-64 | `get_payment_strategy` of the five factory classes: a strategy of the factory's own method. It only computes; `ReadPaymentPays` states that the strategy a found factory makes prints the line of the method its key names. |
| OopStrategy.ReadPayment | OOP-strategy-pattern-implementation.py:75-84 | A key succeeds exactly when it is one of the five. It yields the factory of the method that key names. Any other string is a `KeyError` carrying that key, with no default factory. |
| OopStrategy.ReadPaymentPays | OOP-strategy-pattern-implementation.py:11-64 | For each method's key, the strategy built by the found factory prints exactly `"Paid " + str(amount) + " with " + label`. That line reads back as the method and the amount. |
| OopStrategy.ReadPaymentDistinct | OOP-strategy-pattern-implementation.py:42-84 | Strategies obtained from two different valid keys never print the same line, whatever the two amounts. |
| OopStrategy.PaymentStrategyContext.constructor | OOP-strategy-pattern-implementation.py:88-89 | The context holds its constructor argument from creation onward, and nothing has been printed yet. |
| OopStrategy.PaymentStrategyContext.MakePayment | OOP-strategy-pattern-implementation.py:91-92 | Exactly one line is printed: the held strategy's line for the unchanged amount. Any integer is accepted. The held strategy is unchanged. |
| OopStrategy.PaymentStrategyContext.GetPaymentStrategy | OOP-strategy-pattern-implementation.py:94-96 | The getter returns the held strategy and changes nothing. |
| OopStrategy.PaymentStrategyContext.SetPaymentStrategy | OOP-strategy-pattern-implementation.py:98-100 | The setter replaces the held strategy with its argument. Only that field changes. |
| OopStrategy.RebindThenPay | OOP-strategy-pattern-implementation.py:88-100 | After rebinding from `a` to `b`, the getter returns `b`. The next payment prints `b`'s line, never `a`'s. |
| OopStrategy.Run | OOP-strategy-pattern-implementation.py:103-133 | `Main.run` prints exactly four lines, in this order: cash 100, PayPal 200, credit card 300, bank transfer 400. |
| FunctionalStrategy.CashPaymentStrategy | functional-strategy-pattern-implementation.py:15-16 | Prints `Paid <amount> with cash`. It only computes; its factory states that it is what the factory returns, and `ReadPaymentPays` states the exact line and that it reads back. |
| FunctionalStrategy.CreditCardPaymentStrategy | functional-strategy-pattern-implementation.py:19-20 | Prints `Paid <amount> with credit card`. It only computes; its factory states that it is what the factory returns, and `ReadPaymentPays` states the exact line and that it reads back. |
| FunctionalStrategy.DebitCardPaymentStrategy | functional-strategy-pattern-implementation.py:23-24 | Prints `Paid <amount> with debit card`. It only computes; its factory states that it is what the factory returns, and `ReadPaymentPays` states the exact line and that it reads back. |
| FunctionalStrategy.PaypalPaymentStrategy | functional-strategy-pattern-implementation.py:27-28 | Prints `Paid <amount> with PayPal`. It only computes; its factory states that it is what the factory returns, and `ReadPaymentPays` states the exact line and that it reads back. |
| FunctionalStrategy.BankTransferPaymentStrategy | functional-strategy-pattern-implementation.py:31-32 | Prints `Paid <amount> with bank transfer`. It only computes; its factory states that it is what the factory returns, and `ReadPaymentPays` states the exact line and that it reads back. |
| FunctionalStrategy.PaymentStrategyFn.Call | functional-strategy-pattern-implementation.py:15-32 | Calling a reference to one of the five strategy functions runs that function. It only computes; each factory's contract states which function the reference it returns calls, and `ReadPaymentDistinct` that functions of different methods print different lines. |
| FunctionalStrategy.CreditCardPaymentStrategyFactory | functional-strategy-pattern-implementation.py:35-36 | The factory returns the module-level `credit_card_payment_strategy`, the same function every time. |
| FunctionalStrategy.DebitCardPaymentStrategyFactory | functional-strategy-pattern-implementation.py:39-40 | The factory returns `debit_card_payment_strategy`. |
| FunctionalStrategy.BankTransferPaymentStrategyFactory | functional-strategy-pattern-implementation.py:43-44 | The factory returns `bank_transfer_payment_strategy`. |
| FunctionalStrategy.CashPaymentStrategyFactory | functional-strategy-pattern-implementation.py:47-48 | The factory returns `cash_payment_strategy`. |
| FunctionalStrategy.PaypalPaymentStrategyFactory | functional-strategy-pattern-implementation.py:51-52 | The factory returns `paypal_payment_strategy`. |
| FunctionalStrategy.ReadPayment | functional-strategy-pattern-implementation.py:63-72 | A key succeeds exactly when it is one of the five. It yields the strategy function of the method that key names. Any other string is a `KeyError` carrying that key, and no factory is called. |
| FunctionalStrategy.ReadPaymentPays | functional-strategy-pattern-implementation.py:15-72 | For each method's key, the function found prints exactly `"Paid " + str(amount) + " with " + label`. That line reads back as the method and the amount. |
| FunctionalStrategy.ReadPaymentDistinct | functional-strategy-pattern-implementation.py:15-32 | The functions found for two different valid keys never print the same line. |
| FunctionalStrategy.PaymentStrategyContext.constructor | functional-strategy-pattern-implementation.py:76-77 | The context holds its constructor argument from creation onward, and nothing has been printed yet. |
| FunctionalStrategy.PaymentStrategyContext.MakePayment | functional-strategy-pattern-implementation.py:79-80 | The held function is called once with the unchanged amount, and no validation is done. The held function is unchanged. |
| FunctionalStrategy.PaymentStrategyContext.GetPaymentStrategy | functional-strategy-pattern-implementation.py:82-84 | The getter returns the held function and changes nothing. |
| FunctionalStrategy.PaymentStrategyContext.SetPaymentStrategy | functional-strategy-pattern-implementation.py:86-88 | The setter replaces the held function. Only that field changes. |
| FunctionalStrategy.RebindThenPay | functional-strategy-pattern-implementation.py:76-88 | After rebinding from `a` to `b`, the getter returns `b`. The next payment prints `b`'s line, never `a`'s. |
| FunctionalStrategy.Run | functional-strategy-pattern-implementation.py:91-119 | `main` prints cash 100, PayPal 200, credit card 300, bank transfer 400, in that order and nothing else. |
| MainStrategy.PaymentStrategy.Pay | main.py:11-33 | `pay` of the five `*Payment` classes: the line printed for the instance's own method. It only computes; `FactoryPays` states the exact line and that it reads back, and `FactoryDistinct` that different methods print different lines. |
| MainStrategy.Factory | main.py:60-69 | A key succeeds exactly when it is one of the five. It yields an instance of the class of the method that key names. Any other string is a `KeyError` carrying that key, and nothing is constructed. |
| MainStrategy.FactoryPays | main.py:11-33 | For each method's key, the instance built prints exactly `"Paid " + str(amount) + " with " + label`. That line reads back as the method and the amount. |
| MainStrategy.FactoryDistinct | main.py:11-33 | Instances built for two different valid keys never print the same line. |
| MainStrategy.PaymentContext.constructor | main.py:37-38 | The context holds its constructor argument from creation onward, and nothing has been printed yet. |
| MainStrategy.PaymentContext.MakePayment | main.py:40-41 | The call delegates to the held strategy with the same amount, 0 and negative amounts included. The held strategy is unchanged. |
| MainStrategy.PaymentContext.GetPaymentStrategy | main.py:43-45 | The getter returns the held strategy and changes nothing. |
| MainStrategy.PaymentContext.SetPaymentStrategy | main.py:47-49 | The setter replaces the held strategy. A subsequent getter returns exactly the value set. |
| MainStrategy.RebindThenPay | main.py:37-49 | After rebinding from `a` to `b`, the getter returns `b`. The next payment prints `b`'s line, never `a`'s. |
| MainStrategy.Run | main.py:72-91 | `Main.run` prints cash 100, PayPal 200, credit card 300, bank transfer 400, in that order and nothing else. |

## Left out

- Standard output. A strategy's `print` is modelled by the line it would print. The context appends that line to its `output` log, so line endings and interleaving with other output are not modelled.
- `abc.ABC`, `abc.abstractmethod` and `typing.Protocol`. These only declare interfaces. The abstract `pay` and `get_payment_strategy` bodies (`pass`) are never reached.
- Object identity. `get_payment_strategy` (OOP file) and `factory` (`main.py`) build a fresh instance on every call. The instances are stateless, so the model uses values, and two instances of one class are equal here.
- OopStrategy.PaymentStrategyContext: the context holds one of the five strategies (a `PaymentStrategy` value). In Python, the type hint is not enforced, so any `PaymentStrategy` subclass can be stored, and so can `None`. With `None` stored, the next `make_payment` raises `AttributeError`. The model does not capture that.
- MainStrategy.PaymentContext: the context holds one of the five `*Payment` instances. In Python it accepts any `PaymentStrategy` subclass or `None`, as above. The model does not capture that.
- FunctionalStrategy.PaymentStrategyContext: the context holds a reference to one of the five module-level strategy functions (a `PaymentStrategyFn` value), not an arbitrary callable. A Python caller could store any function of an amount, or `None`, and the model does not capture that.
- Amounts other than Python `int`. The type hints allow only `int`, but Python does not enforce them: a float or a string would also be formatted and printed. The model takes unbounded integers.
- `str(int)` is modelled as plain decimal: an optional minus sign, then digits without leading zeros. Python's limit on converting very long integers to strings is not modelled.
- The `if __name__ == "__main__"` entry points. They only call the drivers, which are modelled as `Run`.
- `test_payment_strategy_context.py`. Every test body is `...`. It imports `read_payment` and `AvailablePaymentStrategyMethods` from `main`, which defines neither, so it states no behaviour to model.
- Concurrency. The programs are single-threaded.
