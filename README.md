# Credit module: loans, installments and payments

A Dafny model of the service layer of a small Spring credit module. Customers have a
credit limit and a used credit. A loan is granted against that limit and split into
equal monthly installments. A payment goes over the unpaid installments due within the
next three months, in stored order. Each is due for its amount adjusted by 0.1% per day
of distance from its due date, and is settled when what is left of the payment covers
that amount at its turn. When every such installment ends up paid, the loan is closed
and its amount is subtracted from the customer's used credit.

Files and modules:

- `wrappers.dfy` (`Wrappers`): `Option` (Java's nullable request fields) and `Result`
  (a value, or the `CreditModuleException` the Java code throws).
- `errors.dfy` (`Errors`): the closed error catalog `ErrorMessage` with its codes and
  messages, and `CreditModuleException`.
- `calendar.dfy` (`Calendar`): the part of `java.time.LocalDate` the services use. A date
  is an absolute month index (12 * year + month-of-year - 1) and a day of that month.
  Month lengths follow the proleptic Gregorian calendar. `DAYS.between` is a difference of
  day numbers, and its sign agreeing with date order is proved, not assumed.
- `entities.dfy` (`Entities`): the persisted records and the response DTOs.
- `loan_rules.dfy` (`LoanRules`): the pure rules of `LoanServiceImpl`. These are the
  installment-count check, the schedule, the early/late adjustment, the three-month
  horizon, the candidate selection and the one-pass allocation of a payment.
- `credit_module.dfy` (`CreditService`): the class `CreditModule`. It holds the three
  repositories as maps and has one method per service operation.

Following the code where a description of the system might suggest otherwise:

- The total of a loan's installments is `loanAmount * interestRate`, not
  `loanAmount * (1 + interestRate)`.
- The branch commented as a late-payment penalty adds `amount * 0.001 * d` with `d`
  negative. A late payment is therefore also a discount (`AdjustmentDirection`).
- Candidates keep repository order and are never sorted by due date.
- The allocation loop has no early exit. A later, cheaper candidate can be paid after an
  earlier one was skipped.
- The closing test looks only at the candidates, never at installments beyond the horizon
  or at `loan.isPaid`. A loan that is already paid but still has payable candidates closes
  again and releases its amount a second time (`CloseIfPaidOff` keeps `isPaid || closes`
  and subtracts whenever `closes`).
- `createLoan` compares the loan amount with `creditLimit` alone. `usedCreditLimit` is never
  consulted, so used credit may exceed the limit.

## Model

| member | source | states |
|---|---|---|
| Errors.ErrorMessage.ErrorCode | src/main/java/com/example/creditmodule/enums/ErrorMessage.java:7-14 | every catalog entry has a fixed code between 1001 and 1008 |
| Errors.ErrorMessage.Message | src/main/java/com/example/creditmodule/enums/ErrorMessage.java:7-14 | every catalog entry has a fixed non-empty message |
| Errors.CatalogInDeclarationOrder | src/main/java/com/example/creditmodule/enums/ErrorMessage.java:7-14 | the catalog has exactly eight entries, every error is one of them, and the codes run 1001, 1002, ... in declaration order |
| Errors.CodesDistinct | src/main/java/com/example/creditmodule/enums/ErrorMessage.java:7-14 | two entries have the same code if and only if they are the same entry |
| Errors.CreditModuleException.GetErrorCode | src/main/java/com/example/creditmodule/exception/CreditModuleException.java:15-17 | the reported code is the code of the entry the exception was built from |
| Errors.CreditModuleException.GetErrorMessage | src/main/java/com/example/creditmodule/exception/CreditModuleException.java:19-21 | the reported message is the message of the entry the exception was built from |
| Errors.ReportedCodeIdentifiesEntry | src/main/java/com/example/creditmodule/exception/CreditModuleException.java:6-21 | two exceptions report the same code if and only if they carry the same entry |
| Calendar.DaysInMonth | src/main/java/com/example/creditmodule/service/impl/LoanServiceImpl.java:88 | a month has 28 to 31 days |
| Calendar.PlusMonths | src/main/java/com/example/creditmodule/service/impl/LoanServiceImpl.java:99 | plusMonths lands k months on, on a valid date, keeping the day or clamping it to the last day of the target month |
| Calendar.FirstOfNextMonth | src/main/java/com/example/creditmodule/service/impl/LoanServiceImpl.java:88 | the result is a valid first-of-month date after the given date, and no first-of-month date after it comes earlier |
| Calendar.FirstDayStep | src/main/java/com/example/creditmodule/service/impl/LoanServiceImpl.java:176 | consecutive months start a month's length apart |
| Calendar.FirstDayMonotone | src/main/java/com/example/creditmodule/service/impl/LoanServiceImpl.java:176 | an earlier month ends no later than a later month begins |
| Calendar.DaysBetweenSign | src/main/java/com/example/creditmodule/service/impl/LoanServiceImpl.java:176-181 | DAYS.between is positive exactly when the first date is before the second, negative exactly when after, zero exactly when equal |
| LoanRules.IsValidInstallmentCount | src/main/java/com/example/creditmodule/service/impl/LoanServiceImpl.java:81-83 | a count is accepted if and only if it is one of the counts the INVALID_NUMBER_OF_INSTALLMENTS message lists (6, 9, 12, 24) |
| LoanRules.InstallmentCountMessageMatchesCheck | src/main/java/com/example/creditmodule/enums/ErrorMessage.java:9 | the invalid-count message is the fixed prefix followed by exactly those listed counts in decimal, so it names exactly the counts isValidInstallmentCount accepts |
| LoanRules.ScheduleDueDates | src/main/java/com/example/creditmodule/service/impl/LoanServiceImpl.java:85-103 | the first due date is the first of the next month; every due date is a valid first of month; each is plusMonths(1) of the one before; due dates strictly increase |
| LoanRules.SumOfEqualAmounts | src/main/java/com/example/creditmodule/service/impl/LoanServiceImpl.java:57-58 | n installments of the same amount add up to n times that amount |
| LoanRules.ScheduleSumsToTotal | src/main/java/com/example/creditmodule/service/impl/LoanServiceImpl.java:55-58 | the installments of a schedule are equal and add up to the total they split |
| LoanRules.AdjustedAmount | src/main/java/com/example/creditmodule/service/impl/LoanServiceImpl.java:175-184 | on either side of the due date, the mislabelled late branch included, the final amount is the nominal amount less 0.1% per day of distance from the due date (partner: AdjustmentDirection) |
| LoanRules.AdjustmentDirection | src/main/java/com/example/creditmodule/service/impl/LoanServiceImpl.java:175-184 | paying early or late lowers a positive amount; paying on the due date leaves it unchanged |
| LoanRules.InHorizon | src/main/java/com/example/creditmodule/service/impl/LoanServiceImpl.java:166 | a first-of-month due date is before today plus three months exactly when its month is under three months on, or exactly three months on with today past the first (used by FreshScheduleCandidates) |
| LoanRules.Candidates | src/main/java/com/example/creditmodule/service/impl/LoanServiceImpl.java:164-167 | the candidates are exactly the positions of the unpaid installments due before today plus three months, in increasing stored order |
| LoanRules.CandidatesAreCandidateList | src/main/java/com/example/creditmodule/service/impl/LoanServiceImpl.java:164-167 | every candidate is an in-range unpaid installment, listed once in increasing order |
| LoanRules.FreshScheduleCandidates | src/main/java/com/example/creditmodule/service/impl/LoanServiceImpl.java:164-167 | on the day of creation the payable installments are the first two, plus the third when today is not the first of the month |
| LoanRules.Settle | src/main/java/com/example/creditmodule/service/impl/LoanServiceImpl.java:186-188 | a settled installment keeps its nominal amount and due date, is paid, records the final amount as paid and today as its payment date (partner: AllocateDecides) |
| LoanRules.Allocate | src/main/java/com/example/creditmodule/service/impl/LoanServiceImpl.java:173-194 | the turns of the first k candidates keep the installment list's length and pay at most k installments |
| LoanRules.AllocateLeavesOthers | src/main/java/com/example/creditmodule/service/impl/LoanServiceImpl.java:175-194 | an installment outside the first k candidates is untouched by their turns |
| LoanRules.AllocateDecides | src/main/java/com/example/creditmodule/service/impl/LoanServiceImpl.java:185-193 | a candidate ends settled for its final amount, paid today, if it was affordable at its turn, and untouched otherwise |
| LoanRules.AllocateEffect | src/main/java/com/example/creditmodule/service/impl/LoanServiceImpl.java:173-194 | after all turns, non-candidates are untouched and each candidate is settled exactly when affordable at its turn (no early exit) |
| LoanRules.AllocateRemainingNonNegative | src/main/java/com/example/creditmodule/service/impl/LoanServiceImpl.java:185-190 | what is left of a non-negative payment never goes negative |
| LoanRules.NothingNewlyPaid | src/main/java/com/example/creditmodule/service/impl/LoanServiceImpl.java:173-174 | before any turn, nothing is newly paid and nothing is counted |
| LoanRules.NewlyPaidAfterUpdate | src/main/java/com/example/creditmodule/service/impl/LoanServiceImpl.java:186-192 | settling one more installment adds its paid amount to the total and one to the count |
| LoanRules.UnpaidBelowCountsPositions | src/main/java/com/example/creditmodule/service/impl/LoanServiceImpl.java:207-211 | the running count of unpaid installments equals the number of positions holding an unpaid installment |
| LoanRules.UnpaidCount | src/main/java/com/example/creditmodule/service/impl/LoanServiceImpl.java:207-211 | the unpaid count of a loan is the number of positions of its whole list holding an unpaid installment (partner: UnpaidAfterPayments) |
| LoanRules.UnpaidAfterPayments | src/main/java/com/example/creditmodule/service/impl/LoanServiceImpl.java:207-211 | when nothing goes from paid to unpaid, the unpaid count drops by the number newly paid |
| LoanRules.AllocateAccounts | src/main/java/com/example/creditmodule/service/impl/LoanServiceImpl.java:173-194 | after every turn, the rest equals the payment less the amounts recorded on newly paid installments, and paidCount counts them |
| LoanRules.AllPaid | src/main/java/com/example/creditmodule/service/impl/LoanServiceImpl.java:197 | the closing test holds exactly when every candidate position holds a paid installment; installments outside the candidates play no part (partner: AllocateOutcome) |
| LoanRules.AllocateOutcome | src/main/java/com/example/creditmodule/service/impl/LoanServiceImpl.java:173-211 | the rest is non-negative and balances the payment; paidCount counts the installments paid; the unpaid count drops by paidCount; all candidates are paid exactly when each was affordable at its turn |
| LoanRules.PaymentAllocation | src/main/java/com/example/creditmodule/service/impl/LoanServiceImpl.java:164-194 | payLoan's allocation keeps the installment list's length and pays at most as many installments as there are candidates |
| LoanRules.PaymentOutcome | src/main/java/com/example/creditmodule/service/impl/LoanServiceImpl.java:164-211 | end to end: installments not payable today are untouched, each candidate is settled exactly when affordable at its turn, the books balance, and the loan closes exactly when every candidate was affordable |
| CreditService.LoansBelow | src/main/java/com/example/creditmodule/service/impl/LoanServiceImpl.java:110 | findByCustomerId returns exactly the customer's loans, each as stored, in increasing id order |
| CreditService.FilterLoans | src/main/java/com/example/creditmodule/service/impl/LoanServiceImpl.java:116-126 | a stream filter keeps exactly the elements satisfying the predicate; an id-increasing input gives an id-increasing output |
| CreditService.FilterLoansSelects | src/main/java/com/example/creditmodule/service/impl/LoanServiceImpl.java:116-126 | the filter result is a subsequence of its input, holding each element satisfying the predicate as often as the input does and no other element |
| CreditService.FilterTwice | src/main/java/com/example/creditmodule/service/impl/LoanServiceImpl.java:116-126 | filtering on one condition and then another equals filtering once on both |
| CreditService.FilterSameCondition | src/main/java/com/example/creditmodule/service/impl/LoanServiceImpl.java:116-126 | filters on conditions that agree on every loan give the same result |
| CreditService.FilterKeepsAll | src/main/java/com/example/creditmodule/service/impl/LoanServiceImpl.java:116-126 | a filter every loan passes returns its input unchanged |
| CreditService.ApplyFilters | src/main/java/com/example/creditmodule/service/impl/LoanServiceImpl.java:116-126 | the two optional filters keep exactly the loans passing each supplied filter; an id-increasing input stays id-increasing |
| CreditService.ApplyFiltersSelects | src/main/java/com/example/creditmodule/service/impl/LoanServiceImpl.java:116-126 | the two optional filters together are one stream filter on both conditions: a subsequence of the input holding each passing loan as often as the input does, and nothing else |
| CreditService.ReleaseCredit | src/main/java/com/example/creditmodule/service/impl/LoanServiceImpl.java:198-204 | when the loan closes, the owner's used credit drops by the loan amount and nothing else about the owner changes; otherwise the owner is unchanged (partner: CloseIfPaidOff) |
| CreditService.SummarizeLoans | src/main/java/com/example/creditmodule/service/impl/LoanServiceImpl.java:128-136 | one response per loan, in the same order, with the loan's fields |
| CreditService.ListedLoans | src/main/java/com/example/creditmodule/service/impl/LoanServiceImpl.java:110-136 | the listed summaries are exactly those of the customer's loans passing the filters, in increasing id order |
| CreditService.CreditModule.CreateCustomer | src/main/java/com/example/creditmodule/service/impl/CustomerServiceImpl.java:17-27 | the new customer gets a fresh id, the given name and surname, and each limit as supplied or 0 when missing, with no check between them; it is stored once and nothing else changes |
| CreditService.CreditModule.InstallmentsOf | src/main/java/com/example/creditmodule/service/impl/LoanServiceImpl.java:141 | findByLoanId returns the installments stored under the loan, and nothing for a loan that does not exist |
| CreditService.CreditModule.CreateInstallments | src/main/java/com/example/creditmodule/service/impl/LoanServiceImpl.java:85-103 | the batch is a schedule: n unpaid installments of the given amount with nothing paid and no payment date, due on the first of each month from next month on |
| CreditService.CreditModule.CreateLoan | src/main/java/com/example/creditmodule/service/impl/LoanServiceImpl.java:41-79 | errors in order: unknown customer, credit limit below the amount (used credit ignored), invalid count, each leaving the state unchanged; when none applies the call succeeds, the unpaid loan is stored with today's date, used credit grows by the amount, and the loan gets a schedule of installments of loanAmount * interestRate / count |
| CreditService.CreditModule.ListLoans | src/main/java/com/example/creditmodule/service/impl/LoanServiceImpl.java:105-137 | CUSTOMER_NOT_FOUND for an unknown customer, then LOAN_NOT_FOUND exactly when the customer has no loans, before filtering; otherwise it succeeds with exactly the customer's loans that pass the supplied filters, in id order |
| CreditService.CreditModule.ListInstallments | src/main/java/com/example/creditmodule/service/impl/LoanServiceImpl.java:139-154 | INSTALLMENT_NOT_FOUND exactly when the loan has no installments; otherwise one summary per stored installment, in stored order, fields copied |
| CreditService.CreditModule.AllocatePayment | src/main/java/com/example/creditmodule/service/impl/LoanServiceImpl.java:173-194 | the payment loop computes exactly the allocation fold: the updated installments, the rest and the paid count |
| CreditService.CreditModule.CloseIfPaidOff | src/main/java/com/example/creditmodule/service/impl/LoanServiceImpl.java:196-205 | when the loan closes it is marked paid and its amount is released from the owner's used credit; otherwise nothing changes; the store stays consistent |
| CreditService.CreditModule.PayLoan | src/main/java/com/example/creditmodule/service/impl/LoanServiceImpl.java:156-222 | LOAN_NOT_FOUND, then NO_PAYABLE_INSTALLMENTS, with no state change; it succeeds exactly when neither applies, the loan's installments become the allocation's, the loan closes and releases its credit exactly when every candidate is paid, and the summary reports paidCount, the unpaid count over the whole list and the rest |

## Left out

- Controllers, security configuration and the HTTP error handler are not part of this model. They only route requests and map exceptions to status codes.
- The JPA repositories and entity annotations are replaced by maps in `CreditModule`. Identity generation is modelled as a counter starting at 0.
- The order of `findByCustomerId` is not specified by the repository interface. The model takes it to be increasing loan id (insertion order).
- Installment ids are not modelled: an installment is identified by its position in its loan's list, and `InstallmentSummary` has no id field.
- `Customer.java` is not part of this model. The customer record has the fields the services read and write: id, name, surname, creditLimit and usedCreditLimit.
- Money is `real`. IEEE-754 `double` rounding in the adjustment, the division into installments and the subtraction of the rest is not modelled.
- `LocalDate.now()` is the parameter `today`. Dates are valid Gregorian dates; the year range of `LocalDate` is not bounded.
- `createLoan` reads the clock twice: once for the loan's `createDate` and once in `createInstallments` for the first due date. The model passes one `today` to both. A call running across midnight at a month end could, in the source, date the loan in one month and start the schedule a month later; the model does not capture that.
- The Bean Validation bounds of the request DTOs are preconditions: `loanAmount >= 0`, `0.1 <= interestRate <= 0.5` and `paymentAmount > 0`. A request violating them never reaches the services.
- Java's `Integer` width for the installment count is not modelled; any count other than 6, 9, 12 or 24 is rejected before it is used.
- Saves of individual entities are not modelled separately: a method's ensures give the whole new state, as it is after the last save.
- There is no concurrency in the services, and none is modelled.
- `LOAN_ALREADY_PAID` and `INVALID_PAYMENT_AMOUNT` are in the catalog, but no operation raises them. Each operation's ensures state that its failures satisfy `Raised`, which excludes them.
