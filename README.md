# Vending machine session, verified model

A model of `VendingMachine.cs`, a text-menu vending machine. The machine keeps three pieces
of state: the product catalogue, the user's credit, and the basket (the indices of the
products picked so far). From the main menu the user adds credit (key 1) or selects products
(key 2). Selecting products means picking items by number, then paying. If the credit is too
low, the user is offered a top-up and asked whether to carry on.

Modules:

- `Console` (console.dfy): the user's answers. Each answer is a `Token` that records three
  things: the key a `ReadKey` prompt would get, the result of `int.TryParse` on the line, and
  the result of `double.TryParse` on it. `Terminal` holds the answers not read yet, and each
  read consumes one.
- `Catalogue` (catalogue.dfy): `Product` with structural equality, `AddProduct` as `Insert`,
  and the five products `Main` adds at start-up.
- `Purchase` (purchase.dfy): the basket total, the affordability test, the shortfall and
  `MakePurchase`'s debit.
- `Flow` (flow.dfy): every interactive loop as a pure function of the state and the unread
  answers. It covers adding credit, the picking loop, the payment loop, product selection,
  the main menu and start-up. The properties of those loops are proved here.
- `Machine` (machine.dfy): class `VendingMachine`. Its fields `products`, `credit` and
  `selection` are updated in place, the way the source updates its static fields. Its
  methods keep the source's loops and flags and are proved to compute the functions of
  `Flow`. The two loops of `ProductSelection` are two methods, `PickProducts` and `Pay`, and
  `Main` is split into `SeedCatalogue` and `MainMenu` under `Start`.
- `Scenarios` (scenarios.dfy): concrete sessions on the seeded catalogue.

The answers are a finite script. When a prompt finds the script used up, the real program
would wait for ever, so the model stops at that point and reports `ended`. The state is then
left as the program leaves it while waiting. All claims about exits, such as the basket being
empty, are made for runs that did not end this way.

Behaviour of the code worth knowing:

- Debit. `MakePurchase` debits only when the remaining credit would be strictly positive
  (`remaining > 0`, VendingMachine.cs:158). The payment loop, however, treats
  `total <= Credit` as affordable (VendingMachine.cs:283). So when the credit equals the
  total exactly, the purchase is reported as successful, the basket is emptied and no credit
  is taken. See `Purchase.Affordable`, `Flow.ExactBalancePurchaseIsFree` and
  `Scenarios.TwoPicksExactBalance`.
- Top-ups. `AddCredits` accepts any amount, including a negative one. The only check is in
  `AddCreditsDisplay`, which re-prompts until the amount parses and is not negative.
- Pauses. After a top-up, and after a successful purchase, the program waits for a key press.
  The model reads and ignores one answer at each of those points.
- Quitting. The only quit keys are `0` (`ConsoleKey.D0`) and Escape. A number-pad 0 is a
  different key and is ignored like any other unrecognised key.

## Model

| member | source | states |
|---|---|---|
| `Catalogue.Insert` | VendingMachine.cs:120-131 | the product is added exactly when no equal product is present; when added, the new catalogue is the old one with the product appended, otherwise it is unchanged; the product is present afterwards; a catalogue without duplicates stays without them |
| `Catalogue.InsertTwiceRefused` | VendingMachine.cs:120-131 | adding the same product a second time answers false and changes nothing |
| `Catalogue.InsertAll` | VendingMachine.cs:45-49 | repeated AddProduct calls keep the earlier catalogue as a prefix, add at most one entry per call, and leave every product added present |
| `Catalogue.SeedProducts` | VendingMachine.cs:45-49 | the five start-up products all have a positive price |
| `Catalogue.Seed` | VendingMachine.cs:45-49 | seeding keeps the earlier catalogue in front, adds at most five entries and makes every start-up product present |
| `Catalogue.InsertAllDistinct` | VendingMachine.cs:45-49 | repeated AddProduct calls keep the catalogue free of duplicates, include every product added, and add at most one entry per call |
| `Catalogue.InsertAllFresh` | VendingMachine.cs:120-131 | inserting products that are new and pairwise different just appends them in order |
| `Catalogue.SeedFromEmpty` | VendingMachine.cs:45-49 | from an empty catalogue the five start-up products are all added, in order, without duplicates |
| `Purchase.Total` | VendingMachine.cs:141-151 | an empty basket costs nothing and a one-pick basket costs that product's price; the method `CalculateTotal` and the lemmas `TotalConcat` and `TotalNonNegative` give the rest |
| `Purchase.TotalConcat` | VendingMachine.cs:141-151 | the total of two baskets joined equals the sum of their totals, so repeated picks each count |
| `Purchase.TotalNonNegative` | VendingMachine.cs:141-151 | with no negative prices the total is never negative |
| `Purchase.Affordable` | VendingMachine.cs:283 | a basket is affordable exactly when `MakePurchase` would debit it or the credit equals its total |
| `Purchase.Shortfall` | VendingMachine.cs:345 | the shortfall is what must be added to the credit to reach the total, and it is positive when the basket is unaffordable |
| `Purchase.Debit` | VendingMachine.cs:154-167 | on a debit the new credit plus the total equals the old credit and is strictly positive; otherwise the credit is unchanged and did not exceed the total |
| `Purchase.DebitNeverNegative` | VendingMachine.cs:154-167 | a debit never takes a non-negative credit below zero |
| `Purchase.ExactBalanceNotDebited` | VendingMachine.cs:156-165 | a basket costing exactly the credit is affordable but is not debited |
| `Flow.Pause` | VendingMachine.cs:196 | a "press any key" wait leaves the session untouched and consumes exactly one answer, reporting the end of input when none is left (also VendingMachine.cs:339) |
| `Flow.IsTopUp` | VendingMachine.cs:180-181 | an unparsable or negative amount is refused and an amount of 0 is accepted |
| `Flow.AddCreditsFlow` | VendingMachine.cs:170-197 | adding credit never touches the catalogue or the basket and never lowers the credit; it consumes at least one answer unless the input ran out |
| `Flow.AddCreditsTakesFirstTopUp` | VendingMachine.cs:175-196 | answers before the first parsable non-negative amount have no effect; exactly that amount is added (zero included), then one key is read |
| `Flow.AddCreditsWithoutTopUp` | VendingMachine.cs:175-189 | when no answer is an acceptable amount, the credit is never changed |
| `Flow.Recognized` | VendingMachine.cs:238-241 | 0 is always accepted at the product prompt, an unparsable line never is, and any other accepted number p names the valid index p - 1 |
| `Flow.PickLoop` | VendingMachine.cs:236-276 | picking keeps the catalogue and the credit and keeps every basket entry a valid index; cancelling empties the basket; otherwise the old basket is a prefix of the new one; reaching payment needs at least one new pick; what each answer does is stated by `ZeroCancels`, `PickAppends` and `PickSkipsUnrecognized` |
| `Flow.ZeroCancels` | VendingMachine.cs:244-248 | 0 at the product prompt empties the basket and ends the loop as cancelled |
| `Flow.PickAppends` | VendingMachine.cs:250-265 | an accepted number p other than 0 appends exactly p - 1; then Y asks again and any other key goes on to payment |
| `Flow.PickSkipsUnrecognized` | VendingMachine.cs:238-275 | unparsable or out-of-range answers at the product prompt have no effect |
| `Flow.PaymentFollowsPickAndNo` | VendingMachine.cs:236-265 | payment is reached only right after a product number p in 1..Count, which appended p - 1, answered by a key other than Y |
| `Flow.PayLoop` | VendingMachine.cs:279-322 | paying keeps the catalogue and a valid basket, empties the basket on every exit, and keeps a non-negative credit non-negative |
| `Flow.AffordablePaysAtOnce` | VendingMachine.cs:283-290 | an affordable basket is settled with MakePurchase's debit and the basket emptied, consuming the one closing key press |
| `Flow.ExactBalancePurchaseIsFree` | VendingMachine.cs:283-289 | when the credit equals the total, the purchase succeeds, the basket is emptied and the credit is unchanged |
| `Flow.DeclineTopUpAbandons` | VendingMachine.cs:292-302 | declining to add credit abandons the order with an empty basket and an unchanged credit |
| `Flow.DeclineContinueAbandons` | VendingMachine.cs:304-316 | adding credit and then declining to continue keeps the topped-up credit, takes no debit, empties the basket and leaves the loop |
| `Flow.RetryOnlyAfterTwoYes` | VendingMachine.cs:304-319 | after Y to both adding credit and continuing, the payment loop repeats on the topped-up state; with `AffordablePaysAtOnce`, `DeclineTopUpAbandons` and `DeclineContinueAbandons` every other case leaves the loop |
| `Flow.PayLoopDebitsAtMostTotal` | VendingMachine.cs:279-319 | however many top-up rounds happen, the final credit is at least the starting credit minus the total, whenever the starting credit or the total is non-negative |
| `Flow.SelectionFlow` | VendingMachine.cs:228-323 | product selection keeps the catalogue and a valid basket, leaves the basket empty on every exit, and keeps a non-negative credit non-negative |
| `Flow.CancelSkipsPayment` | VendingMachine.cs:244-248 | cancelling with 0 skips payment, empties the basket and leaves the credit as it was |
| `Flow.MenuLoop` | VendingMachine.cs:52-90 | the menu keeps the catalogue and a valid basket and keeps a non-negative credit non-negative; an empty basket is empty again when the user quits; what each key does is stated by `MenuOneAddsCredit`, `MenuTwoSelects`, `MenuQuits` and `MenuIgnoresOtherKeys` |
| `Flow.MenuOneAddsCredit` | VendingMachine.cs:66-68 | key 1 runs the add-credit flow, then the menu asks again on the session it leaves |
| `Flow.MenuTwoSelects` | VendingMachine.cs:70-72 | key 2 runs product selection, then the menu asks again on the session it leaves |
| `Flow.MenuIgnoresOtherKeys` | VendingMachine.cs:80-84 | a key other than 1, 2, 0 and Escape changes nothing and the menu asks again |
| `Flow.MenuQuits` | VendingMachine.cs:75-78 | 0 and Escape stop the program with the state unchanged |
| `Flow.Startup` | VendingMachine.cs:39-90 | the program runs on the seeded catalogue and never changes it afterwards |
| `Flow.WholeRunInvariant` | VendingMachine.cs:9-13 | from the initial state, the catalogue is the five seed products without duplicates, the credit never becomes negative, and the basket is empty when the user quits |
| `Machine.VendingMachine.constructor` | VendingMachine.cs:9-13 | the machine starts with no products, zero credit and an empty basket |
| `Machine.VendingMachine.AddProduct` | VendingMachine.cs:120-131 | answers true exactly when no equal product was present, appends it in that case, and otherwise leaves the catalogue as it was; credit and basket are untouched |
| `Machine.VendingMachine.AddCredits` | VendingMachine.cs:134-138 | the credit becomes the old credit plus the amount, the answer is false, nothing else changes |
| `Machine.VendingMachine.CalculateTotal` | VendingMachine.cs:141-151 | the loop's result is the total of the basket, and no state changes |
| `Machine.VendingMachine.MakePurchase` | VendingMachine.cs:154-167 | credit and answer are exactly those of `Purchase.Debit` on the basket total; catalogue and basket are untouched |
| `Machine.VendingMachine.AddCreditsDisplay` | VendingMachine.cs:170-197 | the new state, the unread answers and the end-of-input flag are those of `Flow.AddCreditsFlow` |
| `Machine.VendingMachine.ProductSelection` | VendingMachine.cs:228-323 | the new state, the unread answers and the end-of-input flag are those of `Flow.SelectionFlow` |
| `Machine.VendingMachine.PickProducts` | VendingMachine.cs:236-276 | the way the loop ends, the new state and the unread answers are those of `Flow.PickLoop` |
| `Machine.VendingMachine.Pay` | VendingMachine.cs:279-322 | the new state, the unread answers and the end-of-input flag are those of `Flow.PayLoop` |
| `Machine.VendingMachine.SeedCatalogue` | VendingMachine.cs:45-49 | the catalogue becomes the old one with the five products inserted in order; credit and basket are untouched |
| `Machine.VendingMachine.Start` | VendingMachine.cs:39-90 | the new state, the unread answers and the end-of-input flag are those of `Flow.Startup` |
| `Machine.VendingMachine.MainMenu` | VendingMachine.cs:52-90 | the new state, the unread answers and the end-of-input flag are those of `Flow.MenuLoop` |
| `Console.Terminal.constructor` | VendingMachine.cs:39 | the program starts with every answer of the script still unread |
| `Console.Terminal.ReadKey` | VendingMachine.cs:257 | a key read consumes one answer and yields its key, or reports that the input is exhausted |
| `Console.Terminal.ReadNumber` | VendingMachine.cs:238 | a product-number read consumes one answer and yields its integer parse, or reports that the input is exhausted |
| `Console.Terminal.ReadAmount` | VendingMachine.cs:180 | an amount read consumes one answer and yields its decimal parse, or reports that the input is exhausted |
| `Scenarios.DeclinedForLackOfCredit` | VendingMachine.cs:283-302 | with no credit, picking item 1 and declining a top-up shows a shortfall of 0.80, buys nothing and empties the basket |
| `Scenarios.SodaCanBought` | VendingMachine.cs:283-290 | with credit 1.00, buying item 2 (0.70) leaves 0.30 and an empty basket |
| `Scenarios.CancelledAtOnce` | VendingMachine.cs:244-248 | entering 0 at the product prompt returns at once with the credit unchanged |
| `Scenarios.NegativeAmountRejected` | VendingMachine.cs:175-191 | an amount of -5 is rejected and asked again; 2.5 is then added |
| `Scenarios.TwoPicksExactBalance` | VendingMachine.cs:283-289 | items 1 and 3 (2.05) bought with credit 2.05 succeed, but the credit stays 2.05 |

## Left out

- Console output: `DisplayMain`, `ProductSelectionDisplay`, `TotalDisplay`,
  `NewSelectionDisplay`, `SuccessPurchaseDisplay`, `InsuficientCreditsDisplay`, `Console.Clear`,
  the goodbye lines, `Product.ToString`, and the `:0.00` formatting. They are presentation only.
  The two key presses that `AddCreditsDisplay` and `SuccessPurchaseDisplay` wait for are
  modelled.
- Reading and parsing input. `Console.ReadKey`, `Console.ReadLine`, `int.TryParse`,
  `double.TryParse` and the mapping of keys to `ConsoleKey` belong to the runtime library.
  Each answer carries their results ready-made, including the 32-bit range limit of
  `int.TryParse`.
- Floating point. Costs and credit are exact reals, so the rounding of `double` arithmetic
  is not modelled.
- Blocking on input. The real program waits at a prompt for ever. The script is finite, so
  when it runs out the model stops and reports `ended`.
- Static state. The three static fields become the fields of a single `VendingMachine`
  object.
- Price validation. `AddProduct` accepts negative prices, exactly as the source does.
  `Purchase.TotalNonNegative` holds only for non-negative prices.
- Flow.PayLoopDebitsAtMostTotal: requires a non-negative starting credit or a non-negative
  total. The machine always has both. When both are negative, the exact-balance rule can
  leave the credit below the starting credit minus the total, for example when the credit
  equals the total.
