# Invoice payment processing: a verified Dafny model

This project models the payment-application rules of `InvoiceService` in the
RefactorThis repository. A payment arrives with a reference. The repository
resolves the reference to an invoice, or to nothing. The service then does
three things:

- it chooses one of eight fixed outcome messages, or raises one of three errors;
- on an accepted payment it changes the invoice in place: the running total
  `AmountPaid`, the 14% `TaxAmount`, and an append to the payment history;
- on an accepted payment it saves the invoice through the repository.

Modules:

- `Wrappers`: `Option` and `Result`.
- `Entities`: `InvoiceType`, `Payment`, the value snapshot `InvoiceState`, and
  the mutable class `Invoice`. `InvoiceType` is `Standard | Commercial |
  Other(code)`. A C# enum variable can hold any value of its underlying type,
  and `Other` records a value that names neither declared member.
- `Repositories`: `InvoiceRepository`. It keeps a ghost log `saved` of every
  state passed to `SaveInvoice`. The fetch is not a method here: the caller
  passes the fetch result to the service as an `Option<Invoice>`.
- `PaymentRules`: the decision as pure functions over an `InvoiceState`,
  mirroring the private helpers. It also defines the state after each
  mutation and the lemmas about several calls.
- `Services`: the class `InvoiceService`, with one method per method of the
  source. A method changes the `Invoice` object and calls `SaveInvoice` only
  when it accepts the payment; `HandleZeroAmountInvoice` only reads it.
  Each method's contract ties its message, the invoice's new state and the
  save log to the `PaymentRules` functions.
- `Scenarios`: the unit-test cases, stated as verified methods that call the
  imperative service on fresh objects. Each method also returns how many
  times the invoice was saved, as a ghost out-parameter.

Amounts are `real`. C# `decimal` arithmetic is exact base-10, and tax is
`x * 0.14`.

Two readings are kept exactly as the code has them:

- "already fully paid" compares the sum of the payment history with the
  amount;
- "remaining" is `Amount - AmountPaid`, read from the running total.

`DualReadDivergence` shows what the split allows. If the two fields disagree,
a "final" payment can leave the history summing to more than the amount.
Once the fields agree (`Consistent`), every call keeps them in agreement.

A first payment overwrites `AmountPaid` and `TaxAmount`, as the code does.

The service raises three errors:

- not-found (InvoiceService.cs:21);
- invalid-state (InvoiceService.cs:38);
- unknown-type (InvoiceService.cs:135 and :152). It is raised on a later
  payment that passed the already-full and overpayment checks, when the
  invoice's type value names no enum member. It is raised before any field
  is written or the invoice saved.

## Model

| member | source | states |
|---|---|---|
| `PaymentRules.MessageInjective` | RefactorThis.Application/Services/InvoiceService.cs:37-150 | the eight outcome strings (at :37, :70, :71, :85, :105, :118, :133-134 and :147-150, held by `Message`) are pairwise distinct, so the returned message identifies the outcome |
| `PaymentRules.ErrorMessage` | RefactorThis.Application/Services/InvoiceService.cs:21-152 | the exact error strings at :21, :38, :135 and :152; the unknown-type message is the fixed prefix followed by a minus sign exactly when the type value is negative, then a decimal numeral without leading zeros whose value (`DigitsValue`) is the magnitude of the type value, as C# formats an enum value that names no member |
| `PaymentRules.NatToString` | RefactorThis.Application/Services/InvoiceService.cs:135 | the decimal notation of a natural number: non-empty, digits only, no leading zero, one digit exactly below 10, and denoting the number |
| `PaymentRules.IntToString` | RefactorThis.Application/Services/InvoiceService.cs:135 | the decimal notation of an integer: a leading minus sign exactly for a negative value, followed by the numeral of its magnitude |
| `PaymentRules.SumAmounts` | RefactorThis.Application/Services/InvoiceService.cs:56 | the LINQ `Sum` of the history's amounts; a history of non-negative payments has a non-negative sum |
| `PaymentRules.Remaining` | RefactorThis.Application/Services/InvoiceService.cs:64 | `Amount - AmountPaid`; when the running total agrees with a non-empty history, this equals the amount minus the history sum |
| `PaymentRules.AlreadyFull` | RefactorThis.Application/Services/InvoiceService.cs:63 | the history sum equals the amount and is nonzero; this implies a non-empty history and a nonzero amount |
| `PaymentRules.FirstPayment` | RefactorThis.Application/Services/InvoiceService.cs:100-115 | the mutation at :100-102 and :113-115: the history sum grows by the payment; on an empty history the result has the running total agreeing with the history and satisfies the tax policy |
| `PaymentRules.StandardPartial` | RefactorThis.Application/Services/InvoiceService.cs:160-162 | the tax is unchanged; on a non-empty history, agreement of total and history and the Standard tax policy are kept |
| `PaymentRules.CommercialPartial` | RefactorThis.Application/Services/InvoiceService.cs:170-172 | the tax grows by 14% of the payment; on a non-empty history, agreement of total and history and the Commercial tax policy are kept |
| `PaymentRules.SubsequentPayment` | RefactorThis.Application/Services/InvoiceService.cs:131-153 | Standard and Commercial append the payment and add it to the total, and only Commercial adds 14% tax; an out-of-range type leaves the invoice unchanged, because the dispatch raises before writing |
| `PaymentRules.Effect` | RefactorThis.Application/Services/InvoiceService.cs:72-88 | a rejecting outcome leaves the invoice unchanged; an accepted outcome that passes the type dispatch appends the payment and keeps the amount and type |
| `PaymentRules.SumAmountsAppend` | RefactorThis.Application/Services/InvoiceService.cs:56 | the history sum of a history with one payment appended is the old sum plus that payment's amount |
| `PaymentRules.ZeroAmountOutcome` | RefactorThis.Application/Services/InvoiceService.cs:31-40 | a zero-amount invoice gives "no payment needed" exactly when its history is empty, and the invalid-state error otherwise |
| `PaymentRules.NoExistingPaymentsOutcome` | RefactorThis.Application/Services/InvoiceService.cs:77-89 | first payment: greater than the amount is rejected, equal gives "fully paid", less gives "partially paid", each in both directions |
| `PaymentRules.ExistingPaymentsOutcome` | RefactorThis.Application/Services/InvoiceService.cs:53-75 | later payment: "already fully paid" exactly when the history sum equals the nonzero amount, whatever the payment; otherwise the comparison with `Amount - AmountPaid` gives rejected, final or another partial, each in both directions |
| `PaymentRules.NormalOutcome` | RefactorThis.Application/Services/InvoiceService.cs:42-51 | the first-payment outcomes occur exactly when the history is empty; "no payment needed" never occurs on a non-zero invoice |
| `PaymentRules.Decide` | RefactorThis.Application/Services/InvoiceService.cs:24-28 | the invalid-state error occurs exactly for a zero amount with a non-empty history; "no payment needed" occurs exactly for a zero amount with an empty history; the unknown-type error occurs exactly for a non-zero invoice with a history and an out-of-range type, when the payment is not already-full and does not exceed the remaining amount; no other error occurs |
| `PaymentRules.TypeDispatch` | RefactorThis.Application/Services/InvoiceService.cs:131-153 | the later-payment outcomes on an out-of-range type become the unknown-type error with that type's value; every other outcome passes through unchanged |
| `PaymentRules.Process` | RefactorThis.Application/Services/InvoiceService.cs:18-21 | the not-found error occurs exactly when the repository returned no invoice |
| `PaymentRules.Applied` | RefactorThis.Application/Services/InvoiceService.cs:95-176 | a rejected payment or an error leaves the invoice unchanged; an accepted payment appends the payment once at the end, keeps amount and type, and leaves `AmountPaid` at most `Amount`; a first payment sets `AmountPaid` to the payment and `TaxAmount` to 14% of it whatever the type; a later one adds the payment to `AmountPaid` and adds 14% tax only on Commercial invoices; a settling outcome leaves `AmountPaid == Amount` |
| `PaymentRules.OutcomeIgnoresType` | RefactorThis.Application/Services/InvoiceService.cs:125-154 | between Standard and Commercial, the outcome and the error never depend on the type |
| `PaymentRules.UnknownTypeRaisesOnLaterPayment` | RefactorThis.Application/Services/InvoiceService.cs:125-154 | an out-of-range type gets the same decision as Standard, except that an accepted later payment becomes the unknown-type error; a later payment never changes such an invoice |
| `PaymentRules.AlreadyFullyPaidForAnyAmount` | RefactorThis.Application/Services/InvoiceService.cs:63-70 | when the history sums to the nonzero amount, every payment gets "already fully paid" and changes nothing, so this check comes before the overpayment check |
| `PaymentRules.AppliedKeepsConsistent` | RefactorThis.Application/Services/InvoiceService.cs:100-172 | if the running total agrees with the history before a call, it agrees after it |
| `PaymentRules.AppliedHistoryWithinAmount` | RefactorThis.Application/Services/InvoiceService.cs:64-73 | on a consistent invoice, an accepted payment never makes the history sum exceed the amount |
| `PaymentRules.AppliedKeepsTaxPolicy` | RefactorThis.Application/Services/InvoiceService.cs:101-171 | every call keeps the tax at 14% of the first payment on Standard invoices, and at 14% of all payments on Commercial invoices |
| `PaymentRules.SettlingOutcomeIsFinal` | RefactorThis.Application/Services/InvoiceService.cs:63-73 | after "fully paid" or "final partial payment" on a consistent invoice, every further payment gets "already fully paid" and changes nothing |
| `PaymentRules.SettledAtMostOnce` | RefactorThis.Application/Services/InvoiceService.cs:53-119 | over any sequence of payments, a consistent invoice is reported fully paid at most once, and never once it is already fully paid; after the whole sequence (`ProcessAll`) it is still consistent, and it is fully paid if it was at the start or any call reported it so |
| `PaymentRules.DualReadDivergence` | RefactorThis.Application/Services/InvoiceService.cs:56-66 | with history [5], `AmountPaid` 0 and amount 10, a payment of 10 is a final partial payment and leaves the history summing to 15 |
| `Repositories.InvoiceRepository.SaveInvoice` | RefactorThis.Application/Interfaces/IInvoiceRepository.cs:8 | saving appends the invoice's current state to the save log |
| `Entities.Invoice.constructor` | RefactorThis.Domain/Entities/Invoice.cs:6-14 | a new invoice holds exactly the given field values |
| `Services.InvoiceService.constructor` | RefactorThis.Application/Services/InvoiceService.cs:13-16 | the service holds the given repository |
| `Services.InvoiceService.ProcessPayment` | RefactorThis.Application/Services/InvoiceService.cs:18-29 | returns the message of `Process` on the state before the call, or its error; the invoice ends in the `Applied` state; the save log grows by exactly the new state when the payment is accepted, and is unchanged otherwise, including when no invoice is found |
| `Services.InvoiceService.HandleZeroAmountInvoice` | RefactorThis.Application/Services/InvoiceService.cs:31-40 | returns the response of `ZeroAmountOutcome` and changes nothing |
| `Services.InvoiceService.HandleNormalInvoice` | RefactorThis.Application/Services/InvoiceService.cs:42-51 | message, new state and save log follow `NormalOutcome` |
| `Services.InvoiceService.HandleInvoiceWithExistingPayments` | RefactorThis.Application/Services/InvoiceService.cs:53-75 | message, new state and save log follow `ExistingPaymentsOutcome` |
| `Services.InvoiceService.HandleInvoiceWithNoExistingPayments` | RefactorThis.Application/Services/InvoiceService.cs:77-89 | message, new state and save log follow `NoExistingPaymentsOutcome` |
| `Services.InvoiceService.FirstFullPayment` | RefactorThis.Application/Services/InvoiceService.cs:95-106 | "invoice is now fully paid"; the total and tax are overwritten and the payment is appended; one save of the new state |
| `Services.InvoiceService.FirstPartialPayment` | RefactorThis.Application/Services/InvoiceService.cs:108-119 | "invoice is now partially paid"; the same mutation; one save of the new state |
| `Services.InvoiceService.AnotherPartialPayment` | RefactorThis.Application/Services/InvoiceService.cs:125-137 | "another partial payment received, still not fully paid" and the later-payment mutation with one save on Standard and Commercial; on an out-of-range type, the unknown-type error with no change and no save |
| `Services.InvoiceService.FinalPartialPayment` | RefactorThis.Application/Services/InvoiceService.cs:139-154 | "final partial payment received, invoice is now fully paid" and the later-payment mutation with one save on Standard and Commercial; on an out-of-range type, the unknown-type error with no change and no save |
| `Services.InvoiceService.AddStandardPartial` | RefactorThis.Application/Services/InvoiceService.cs:158-166 | adds the payment to the total, appends it, leaves the tax unchanged, saves once, and returns the given message |
| `Services.InvoiceService.AddCommercialPartial` | RefactorThis.Application/Services/InvoiceService.cs:168-176 | adds the payment to the total and 14% of it to the tax, appends it, saves once, and returns the given message |
| `Scenarios.NoInvoiceFound` | RefactorThis.Domain.Tests/InvoicePaymentProcessorTests.cs:25-32 | no invoice gives the error "There is no invoice matching this payment", and nothing is saved |
| `Scenarios.NoPaymentNeededScenario` | RefactorThis.Domain.Tests/InvoicePaymentProcessorTests.cs:35-49 | amount 0 and no payments gives "no payment needed", and nothing is saved |
| `Scenarios.AlreadyFullyPaidScenario` | RefactorThis.Domain.Tests/InvoicePaymentProcessorTests.cs:52-66 | amount 10 with history [10] gives "invoice was already fully paid", and nothing is saved |
| `Scenarios.ExceedsRemainingScenario` | RefactorThis.Domain.Tests/InvoicePaymentProcessorTests.cs:69-83 | amount 10 with 5 paid and a payment of 6 gives "the payment is greater than the partial amount remaining", and nothing is saved |
| `Scenarios.ExceedsInvoiceAmountScenario` | RefactorThis.Domain.Tests/InvoicePaymentProcessorTests.cs:86-100 | amount 5 with no payments and a payment of 6 gives "the payment is greater than the invoice amount", and nothing is saved |
| `Scenarios.FinalPartialScenario` | RefactorThis.Domain.Tests/InvoicePaymentProcessorTests.cs:103-117 | amount 10 with 5 paid and a payment of 5 on a Standard invoice gives the final-partial message, the tax unchanged and one save; the tax starts at 0.7, where the test leaves it at the default 0, so that "unchanged" is visible |
| `Scenarios.FirstFullPaymentScenario` | RefactorThis.Domain.Tests/InvoicePaymentProcessorTests.cs:120-134 | amount 10 with a payment of 10 gives "invoice is now fully paid", paid 10, tax 1.4 and one save |
| `Scenarios.AnotherPartialScenario` | RefactorThis.Domain.Tests/InvoicePaymentProcessorTests.cs:137-151 | amount 10 with 5 paid and a payment of 1 gives "another partial payment received, still not fully paid", paid 6 and one save |
| `Scenarios.FirstPartialScenario` | RefactorThis.Domain.Tests/InvoicePaymentProcessorTests.cs:154-168 | amount 10 with a payment of 1 gives "invoice is now partially paid", tax 0.14 and one save |
| `Scenarios.CommercialSettlingScenario` | RefactorThis.Application/Services/InvoiceService.cs:108-176 | on a Commercial invoice of 10, payments of 4, 6 and 1 give partially paid, final partial and already fully paid, with tax 1.4 at the end and two saves |
| `Scenarios.UnknownTypeScenario` | RefactorThis.Application/Services/InvoiceService.cs:125-137 | a payment of 1 on an invoice of 10 with 5 paid and type value 2 gives the error "Unknown invoice type: 2", with the total unchanged and nothing saved |

## Left out

- C# `decimal` precision: the 28-digit range, overflow and rounding of `payment.Amount * 0.14m` are not modelled. Amounts are exact reals.
- Repository fetch: `GetInvoice(reference)` is not modelled as an operation. Callers pass its result to `ProcessPayment` as a parameter, so the payment's reference is never consulted.
- `IInvoiceRepository.Add` is not used by the service and is not modelled.
- The concrete `InvoiceRepository` is not modelled. It returns its single stored invoice whatever the reference, and its `SaveInvoice` is empty.
- The dependency-injection wiring is not modelled.
- `Invoice.Id` (a Guid) is not modelled.
- Exceptions become `Err` values carrying the error kind, with `ErrorMessage` giving the exact message text. The exception class `InvoiceException` is not part of this model.
- RefactorThis.Domain/Entities/Payment.cs is not part of this model. `Payment` is reconstructed from its uses: a reference string and a decimal amount.
- Concurrency and persistence failures are out of scope. Each call is a single synchronous step.
