# Design patterns playground — verified model of its stateful demos

The repository is a Swift playground with one section per classic design pattern.
Each section defines a few small classes and then runs a short demonstration that
prints its results. This project models the sections that have state or decisions
worth stating. It proves what each of them promises.

- **Chain of Responsibility** (`chain_of_responsibility.dfy`, module `ChainOfResponsibility`).
  Accounts are linked by `setSuccessor`. `pay` is handled by the first account in the
  chain whose balance covers the amount. Every account before it forwards the payment
  to its successor. When no account can pay, "I have no money :(" is printed. The chain
  is a sequence of accounts held by a `Chain` object, and the successor of index `i` is
  `i + 1`. `Chain.Pay` walks the chain with a loop. It is proved against the
  specification functions `FirstPayer`, `PayChain` and `PayEvent`.
- **State** (`state.dfy`, module `State`). A `Cart` holds a balance, initially 5000. It
  also holds a network state, `Connected` or `Disconnected`; the initial state is
  `Disconnected`. `pay` first checks the balance and then asks the state whether the
  payment goes through.
- **Factory Method** (`factory_method.dfy`, module `FactoryMethod`). `createClothes`
  maps each `ClotheType` to an item of that type.
- **Builder + Director** (`builder.dfy`, module `Builder`). A builder fills in the fields
  of its `Car` step by step. `Director.createCar` resets the builder, runs every step and
  returns the builder's car. The two Swift builder classes differ only in their
  constants, so here they are one class, `CarBuilder`, whose `make` field (`Bmw` or
  `Plimuth`) selects the constants. The Swift field `type` is named `carType`, because
  `type` is a Dafny keyword.
- **Visitor** (`visitor.dfy`, module `Visitor`). Attractions react to a visit by someone
  whose age may be unknown. The water slide admits a visitor only when the age is known
  and at least its minimum age.

Printed output is modelled as values, not text. `Chain` and `Cart` append event values
to a `log` field, and `VisitResult` returns one. Each event carries the data that the
printed line interpolates, such as the new balance and the account title. Swift's
optional `T?` is the `Option` datatype of `optional.dfy`.

## Model

| member | source | states |
|---|---|---|
| ChainOfResponsibility.CanPay | Patterns.playground/Contents.swift:359-361 | an account can pay exactly when paying would not leave its balance negative |
| ChainOfResponsibility.FirstPayer | Patterns.playground/Contents.swift:347-361 | the account chosen to pay is the first one, at or after the starting account, whose balance is at least the amount; every earlier account fails `canPay`; when none is returned, no account from the start onwards can pay |
| ChainOfResponsibility.PayChain | Patterns.playground/Contents.swift:347-356 | after `pay`, the chain has the same length and titles; only the paying account changes, and its balance drops by exactly the amount |
| ChainOfResponsibility.PayEvent | Patterns.playground/Contents.swift:350-355 | "no money" is reported exactly when no account can pay; otherwise the purchase line names the paying account and shows the requested amount and that account's balance after the debit |
| ChainOfResponsibility.TotalOfDebit | Patterns.playground/Contents.swift:348-349 | debiting one account lowers the sum of all balances by exactly the amount |
| ChainOfResponsibility.PayUnfolds | Patterns.playground/Contents.swift:347-356 | the model follows the three branches of `pay`: the account pays itself when `canPay` holds; otherwise a payment from this account equals the same payment from its successor; the last account reports "no money" and changes nothing |
| ChainOfResponsibility.NoMoneyIffNobodyCanPay | Patterns.playground/Contents.swift:351-356 | "I have no money :(" is reported exactly when no account from the starting one onwards has balance at least the amount; in that case no balance changes |
| ChainOfResponsibility.PayKeepsBalancesNonNegative | Patterns.playground/Contents.swift:347-361 | if every balance is non-negative before `pay`, every balance is non-negative after it |
| ChainOfResponsibility.TotalAfterPay | Patterns.playground/Contents.swift:347-356 | the sum of all balances drops by exactly the amount when some account pays, and is unchanged otherwise |
| ChainOfResponsibility.Chain.constructor | Patterns.playground/Contents.swift:338-341 | a new account stands alone: a chain of one account with nothing printed yet |
| ChainOfResponsibility.Chain.SetSuccessor | Patterns.playground/Contents.swift:343-345 | the given account, with its own successors, follows account `i`; the accounts up to `i` are kept |
| ChainOfResponsibility.Chain.Pay | Patterns.playground/Contents.swift:347-357 | the loop over successors leaves exactly the accounts given by `PayChain` and appends the event given by `PayEvent` to the log |
| ChainOfResponsibility.ChainDemo | Patterns.playground/Contents.swift:364-376 | cash 10000, debet 15000, credit 20000, then paying 5000, 6000 and 13000, ends with balances 5000, 9000, 7000; the three purchases are made by cash, debet card and credit card |
| State.Payment | Patterns.playground/Contents.swift:617-629 | `payment` accepts exactly in the `Connected` state and refuses in `Disconnected` |
| State.PaymentEvent | Patterns.playground/Contents.swift:617-629 | the state prints "Processing" exactly when it accepts the payment, and "Network is not available" otherwise |
| State.PayEvents | Patterns.playground/Contents.swift:639-650 | "Not enouph money" is printed, alone, exactly when the balance is below the amount; otherwise the state's own line comes first and "Payment failed" follows exactly when the state refuses |
| State.PayBalance | Patterns.playground/Contents.swift:639-651 | the balance is unchanged when it is below the amount, whatever the state; it is unchanged when disconnected; it drops by exactly the amount when connected and covered; it never becomes negative from a non-negative start |
| State.PaySucceedsIffConnectedAndCovered | Patterns.playground/Contents.swift:617-651 | "Payment success" is printed if and only if the state is `Connected` and the balance covers the amount; it reports the debited balance; in every other case the balance is unchanged |
| State.Cart.constructor | Patterns.playground/Contents.swift:631-633 | a new cart is disconnected, holds 5000 and has printed nothing |
| State.Cart.SetState | Patterns.playground/Contents.swift:635-637 | replaces the state and changes nothing else |
| State.Cart.Pay | Patterns.playground/Contents.swift:639-651 | the new balance is `PayBalance` of the old state and balance; the printed lines are appended to the log; the state is unchanged |
| State.CartDemo | Patterns.playground/Contents.swift:654-658 | from 5000: pay 2000 while disconnected, connect, pay 2000, pay 6000 ends with balance 3000; the printed lines are network unavailable, payment failed, processing, success with 3000, then not enough money |
| FactoryMethod.CreateClothes | Patterns.playground/Contents.swift:48-58 | the item made has exactly the requested type, for every `ClotheType` |
| FactoryMethod.CreateClothesOfType | Patterns.playground/Contents.swift:18-58 | every clothing class is what the factory makes for that class's own type |
| FactoryMethod.CreateClothesInjective | Patterns.playground/Contents.swift:49-58 | two requests give the same item exactly when they ask for the same type |
| FactoryMethod.FactoryDemo | Patterns.playground/Contents.swift:61-65 | the demonstration makes a red Hat, white Shues and blue Jeans, in that order |
| Visitor.VisitResult | Patterns.playground/Contents.swift:543-579 | the water slide reports "Sliding" exactly when the age is present and at least `minAge`, and "not allowed" otherwise; the sauna reports its own type and temperature; the pool reports swimming |
| Visitor.SlideAdmissionMonotone | Patterns.playground/Contents.swift:572-578 | whoever the slide admits, it also admits anyone older |
| Visitor.OnlySlideReadsAge | Patterns.playground/Contents.swift:552-560 | the sauna and the pool give the same result whatever the age, including an unknown one |
| Visitor.AttractionClient.Visit | Patterns.playground/Contents.swift:581-599 | a client of known age is admitted to the slide exactly when its age is at least `minAge` |
| Visitor.VisitorDemo | Patterns.playground/Contents.swift:601-607 | a 13-year-old sits in the Fineland sauna at 90 and is admitted to the slide for age 12 and over |
| Visitor.SlideRefusalExample | Patterns.playground/Contents.swift:572-576 | the same slide turns away an 11-year-old and a visitor whose age is unknown |
| Builder.Car.constructor | Patterns.playground/Contents.swift:198-204 | a new car has every field unset |
| Builder.CarBuilder.constructor | Patterns.playground/Contents.swift:217-219 | a new builder holds a freshly allocated car with every field unset (same for `PlimuthBuilder`, lines 251-253) |
| Builder.CarBuilder.Reset | Patterns.playground/Contents.swift:221-223 | the builder's car is a freshly allocated car with every field unset (same for `PlimuthBuilder`, lines 255-257) |
| Builder.CarBuilder.SetTitle | Patterns.playground/Contents.swift:225-227 | sets only the title, to "BMW" or "Plimuth" (lines 259-261) |
| Builder.CarBuilder.SetEngineVolume | Patterns.playground/Contents.swift:229-231 | sets only the engine volume, to 2.5 (lines 263-265) |
| Builder.CarBuilder.SetType | Patterns.playground/Contents.swift:233-235 | sets only the type, to "Lighweight" (lines 267-269) |
| Builder.CarBuilder.SetLifting | Patterns.playground/Contents.swift:237-239 | sets only the maximum lifting, to 700 or 480 (lines 271-273) |
| Builder.CarBuilder.SetColor | Patterns.playground/Contents.swift:241-243 | sets only the color, to "Black" or "Red" (lines 275-277) |
| Builder.CarBuilder.GetObject | Patterns.playground/Contents.swift:245-247 | returns the builder's own car, not a copy (lines 279-281) |
| Builder.Director.constructor | Patterns.playground/Contents.swift:288-290 | the director starts with the given builder |
| Builder.Director.SetBuilder | Patterns.playground/Contents.swift:292-294 | replaces the builder |
| Builder.Director.CreateCar | Patterns.playground/Contents.swift:296-305 | returns a freshly allocated car whose title, engine volume, type, maximum lifting and color are all the current builder's constants; only the builder object is modified, so no car allocated before the call changes |
| Builder.BuildTwice | Patterns.playground/Contents.swift:296-305 | two `createCar` calls give two distinct cars, and the first is still fully populated after the second is built |
| Builder.BuilderDemo | Patterns.playground/Contents.swift:309-318 | the demonstration builds a car titled "BMW" and, after `setBuilder`, one titled "Plimuth" |

## Left out

- Abstract Factory (lines 73-168): it only picks constant objects and prints their names. It has no state change to state.
- Prototype (`Phone.clone`, lines 172-193): its `price` is a `Double`, and the demonstration only reads titles back.
- Command (lines 379-462): it dispatches to constant print statements. Its only decision is the missing-officiant guard.
- Mediator (lines 466-527): its output depends on the current date and Foundation's `DateFormatter`.
- Strategy and Adapter (lines 662-744): their whole behaviour is `Double` arithmetic and float-to-`Int` truncation.
- `putOn` of the clothing classes and the printing loop of lines 67-69: console output only. The items' titles and colors are modelled.
- The text of printed lines: events carry the interpolated values, not the formatted strings.
- ChainOfResponsibility.Chain.SetSuccessor: accounts are values in one sequence. So a successor shared by two chains, and the cycles that `setSuccessor` allows, are not modelled. The successor and its own successors are given as one sequence.
- ChainOfResponsibility.Chain.Pay: balances are unbounded integers. Swift's trap on `Int` overflow in `ballancce -= ammount` is not modelled.
- State.Cart.Pay: the balance is an unbounded integer. Swift's `Int` overflow trap is not modelled.
- Other implementations of the `CarBuilder` protocol: the two Swift builder classes are one class keyed by `make`, so the director can only hold one of these two builders.
