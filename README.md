# Payment processing of a telecom billing server, modelled in Dafny

The server keeps three tables that matter for payments: `customer` (one
`owed_balance` per `customer_id`), `cust_bank` (bank rows holding a customer id,
card number, expiry date, CVC and balance) and `payment` (an append-only record of
payments). Its `/process-payment` handler runs one transaction. It looks up the
customer, refuses an amount above the owed balance, and looks up a bank row whose
four credential columns all match the request. It then refuses the payment if that
row's balance is below the amount. Otherwise it debits the bank, reduces the owed
balance and inserts a payment record, then commits.

The model has these modules:

- `PaymentSpec` holds the tables as a value (`Tables`) and the request. It also
  holds the verdict of the handler's checks (`Decide`), which statements the
  handler sends (`Sends`), and what a call reports and leaves behind (`Outcome`,
  `After`).
- `PaymentLedger.Ledger` is a class whose fields are the three tables. Its method
  `ProcessPayment` updates them in place, statement by statement. A failing
  statement takes the catch path (`Abort`), which rolls back to the tables saved
  at BEGIN. The method is proved to agree with `Outcome` and `After`.
- `PaymentProperties` holds the lemmas about one call and about a series of calls.
- `CheckAccount` models the decision of the `/check-account` login handler.
- `CheckBusy` models the input guard of the `/checkBusy` handler, with ECMAScript
  truthiness and `isNaN` written out.

Amounts and balances are whole numbers (cents). A database error is an input
`Fault`, which names the one statement the database rejects. It only has an effect
if the handler actually sends that statement. Then the catch path rolls back and
reports `StorageError`.

Points where the model follows the code, not what a reader might expect:

- The code has no check that the amount is positive. The model has none either.
  `NegativeAmountRaisesBalances` shows that a negative payment raises both balances.
- The bank debit updates every `cust_bank` row of the customer. Only the first row
  that matches the credentials has its balance checked. So bank balances stay
  non-negative only when a customer has one bank row (`BankNonNegativePreserved`).
  Otherwise a second card can be overdrawn (`SecondAccountCanBeOverdrawn`).
- The credential lookup needs at least one matching row, not exactly one. The
  first match in table order is used.
- The two early returns (unknown customer, amount above owed) send no ROLLBACK.
  Nothing has been written at that point, so the tables are unchanged.

## Model

| member | source | states |
|---|---|---|
| `PaymentLedger.Ledger.ProcessPayment` | server.js:152-235 | the result and the new tables are `Outcome` and `After` of the tables before the call; any result but success leaves all three tables as they were; existing payment records are kept |
| `PaymentLedger.Ledger.Pay` | server.js:198-219 | once the checks pass, the result and the new tables are `Outcome` and `After`: a failing UPDATE, INSERT or COMMIT leaves the tables as at BEGIN and reports a database error, otherwise all three writes are applied |
| `PaymentSpec.CommitPath` | server.js:198-231 | on the path where the checks pass, a failure of any of its four statements means a database error and no writes; otherwise the call succeeds with the three writes |
| `PaymentLedger.Ledger.Abort` | server.js:228-231 | the catch path restores the tables saved at BEGIN and reports a database error |
| `PaymentSpec.FirstMatch` | server.js:178-195 | the credential lookup returns the first row whose customer id, card number, expiry date and CVC all equal the request's, or none exactly when no row matches |
| `PaymentSpec.Matches` | server.js:187-191 | no `ensures`; its definition is the WHERE clause of the credential lookup: customer id, card number, expiry date and CVC all equal the request's. Its use is fixed by the contract of `FirstMatch` |
| `PaymentSpec.Decide` | server.js:167-198 | no `ensures`; its definition gives the verdict of the four checks in the handler's order: unknown customer, amount above the owed balance, no matching row, first matching row's balance below the amount. `IncorrectDetailsIff`, `InsufficientFundsIff`, `SuccessIff` and `ExceedsOwedBeforeCredentials` characterise it |
| `PaymentSpec.Sends` | server.js:158-230 | no `ensures`; its definition gives the statements sent when nothing fails: BEGIN and the customer lookup always, the account lookup unless an early return, ROLLBACK only on the two refusals after the account lookup, the two UPDATEs, the INSERT and COMMIT only on success. `NotFoundLeavesTablesUnchanged`, `ExceedsOwedBeforeCredentials` and `UnsentFaultIsHarmless` use it |
| `PaymentSpec.Debit` | server.js:200-204 | no `ensures`; `UPDATE cust_bank ... WHERE cust_id`: every row of the customer loses the amount. `SuccessEffect` and `OtherCustomersUnchanged` fix its effect |
| `PaymentSpec.Committed` | server.js:200-217 | no `ensures`; the three writes of a successful call: owed balance reduced, bank rows debited, one record appended. `SuccessEffect` and `CallConservesTotals` state their effect |
| `PaymentSpec.Outcome` | server.js:158-231 | no `ensures`; the reply: a database error when a statement the handler sends fails, otherwise the verdict of `Decide`. `FailureLeavesTablesUnchanged`, `SuccessIff` and `UnsentFaultIsHarmless` characterise it |
| `PaymentSpec.After` | server.js:158-231 | no `ensures`; the tables after the call: the three writes only when the reply is success, else the tables as at BEGIN. `FailureLeavesTablesUnchanged`, `SuccessEffect` and `OtherCustomersUnchanged` characterise it |
| `PaymentProperties.NotFoundLeavesTablesUnchanged` | server.js:161-175 | an unknown customer is reported as not found (a database error if BEGIN or the lookup fail); no ROLLBACK or bank lookup is sent; tables unchanged |
| `PaymentProperties.ExceedsOwedBeforeCredentials` | server.js:167-178 | an amount above the owed balance is refused whatever card details are given; no ROLLBACK is sent; tables unchanged |
| `PaymentProperties.IncorrectDetailsIff` | server.js:178-226 | without a database error, "incorrect payment details" holds exactly when the customer exists, the amount is within what is owed, and no bank row matches all four credentials |
| `PaymentProperties.InsufficientFundsIff` | server.js:194-222 | without a database error, "insufficient bank balance" holds exactly when the earlier checks pass and the first matching row's balance is below the amount |
| `PaymentProperties.SuccessIff` | server.js:158-219 | a payment succeeds exactly when the customer exists, the amount is within what is owed, the first matching row covers it, and no statement sent fails |
| `PaymentProperties.FirstMatchFindsFirst` | server.js:194-195 | the row the handler takes is the first row that matches |
| `PaymentProperties.SuccessEffect` | server.js:200-219 | on success the owed balance and every bank row of the customer drop by exactly the amount, and exactly one record (customer, amount) is appended |
| `PaymentProperties.FailureLeavesTablesUnchanged` | server.js:220-231 | every outcome but success leaves the tables unchanged; a database error is reported exactly when a statement the handler sends fails |
| `PaymentProperties.UnsentFaultIsHarmless` | server.js:157-231 | a failure in a statement the handler never sends does not change the result or the tables |
| `PaymentProperties.OtherCustomersUnchanged` | server.js:200-216 | the set of customers, other customers' owed balances and bank rows, and the owners of all rows are unchanged; payment records are only appended, at most one per call |
| `PaymentProperties.NonNegativeAfterSuccess` | server.js:167-210 | success leaves the owed balance and the matched row's balance at least zero whatever the amount (the guards on the owed balance and on the matched row's balance); with an amount of at least zero it raises neither |
| `PaymentProperties.NegativeAmountRaisesBalances` | server.js:152-210 | as no sign check exists, a successful negative payment raises the owed balance and every bank row of the customer |
| `PaymentProperties.OwedNonNegativePreserved` | server.js:167-210 | owed balances at least zero stay so under any payment, whatever its amount or fault |
| `PaymentProperties.BankNonNegativePreserved` | server.js:194-204 | bank balances at least zero stay so under any payment when each customer has one bank row, and that property is kept |
| `PaymentProperties.SecondAccountCanBeOverdrawn` | server.js:194-204 | with two rows for one customer, a successful payment drives the unchecked row below zero |
| `PaymentProperties.PaidByAppend` | server.js:213-216 | inserting a payment record adds its amount to its customer's total paid |
| `PaymentProperties.CallConservesTotals` | server.js:200-218 | each call keeps owed balance plus total paid, and each bank row's balance plus its customer's total paid, constant |
| `PaymentProperties.RunConservesTotals` | server.js:152-235 | over any series of calls, each customer's owed balance and each bank row's balance fall by exactly the total of the payment records added for that customer |
| `PaymentProperties.RunKeepsOwedNonNegative` | server.js:167-210 | over any series of calls, whatever their amounts, owed balances stay at least zero |
| `PaymentProperties.PaymentScenarios` | server.js:152-235 | 40 paid against 100 owed and 500 in the bank leaves 60 and 460 and one record; 150 against 100 owed, a wrong CVC, and 50 against a balance of 30 are refused with the tables unchanged |
| `CheckAccount.FirstWithPhone` | server.js:99-133 | the lookup by phone number returns the first row with that number, or none exactly when no row has it |
| `CheckAccount.Login` | server.js:132-144 | "no account found" exactly when no row has the phone number; a login returns a row with that phone number and exactly that password; "password incorrect" only when a row with the number has another password |
| `CheckAccount.LoginWithUniquePhones` | server.js:132-141 | with unique phone numbers, login succeeds exactly when some row has both the number and the password, and returns that row |
| `CheckBusy.RejectsBusyInput` | server.js:243-245 | no `ensures`; the guard: a request is refused when `cust_id` is falsy, `number` is falsy, or `isNaN(number)` holds. The `CheckBusy` lemmas below state which inputs pass |
| `CheckBusy.Truthy` | server.js:243 | no `ensures`; ECMAScript ToBoolean on a JSON value: `undefined`, `null`, `false`, zero and the empty string are falsy. `MissingFieldRejected` and `AcceptedNumberIsNumeric` use it |
| `CheckBusy.IsNaN` | server.js:243 | no `ensures`; ECMAScript `isNaN` on a JSON value: true for `undefined`, an object and a string outside the numeric-literal grammar, false for `null`, booleans and numbers. `AcceptedNumberIsNumeric` and `NonNumericStartRejected` use it |
| `CheckBusy.IsStringNumericLiteral` | server.js:243 | no `ensures`; the StringNumericLiteral grammar of section 7.1.4.1.1 of ECMA-262: white space alone, or a signed decimal or a binary, octal or hexadecimal integer with white space around it. `DigitStringAccepted`, `WhiteSpaceAccepted` and `NonNumericStartRejected` state instances of it |
| `CheckBusy.MissingFieldRejected` | server.js:243-245 | a missing, null or empty `cust_id` or `number` is refused |
| `CheckBusy.AcceptedNumberIsNumeric` | server.js:243-245 | an accepted request has a truthy `cust_id` and a `number` that is a nonzero number, `true`, or a nonempty numeric string |
| `CheckBusy.DigitStringAccepted` | server.js:243-245 | a `number` made of decimal digits passes with any truthy `cust_id` |
| `CheckBusy.WhiteSpaceAccepted` | server.js:243-245 | a `number` of white space alone passes, since it converts to zero |
| `CheckBusy.NonNumericStartRejected` | server.js:243-245 | a `number` whose first character is not white space and cannot start a number is refused |

## Left out

- Express setup, middleware, static files, `app.listen`, and the JSON bodies and HTTP statuses of responses (server.js:1-13, 268-271). Results are an enumeration, with the response message noted beside each constructor.
- The connection pool and client acquire/release (server.js:19-25, 155, 233). A failure of `pool.connect()` happens outside the handler's try block and is not modelled.
- A failure of the ROLLBACK in the catch path (server.js:230) escapes the handler, and no response is sent. The model assumes that ROLLBACK succeeds.
- The early returns release the client with its transaction still open. Later use of that connection is outside this model of the tables.
- The SQL read endpoints `/update-balance` and `/update-info` (server.js:28-89). They are single lookups done by the database.
- The lookup in `/check-account` (server.js:99-130) is modelled only as a list of rows searched by phone number. The join with `phone_plan`, the usage sums and the profile columns are not modelled. The `name` and `email` fields of the request are used only in the log line (server.js:95), which is not modelled.
- The `/checkBusy` query after the guard (server.js:247-264).
- `CheckBusy.Truthy`: JSON numbers are modelled as exact reals. A JSON number that parses to zero by underflow (such as `1e-400`) is falsy in the code and refused, but the model treats it as nonzero and accepts it. A number that parses to Infinity (such as `1e400`) is not distinguished; it is truthy and not NaN in both.
- `CheckAccount.Login`: the password is modelled as a string on both sides. The code compares with `===` against any JSON value, so a `null` password in the request matches a NULL `pwd` column; the model cannot express either value.
- `CheckBusy.IsNaN`: JSON arrays are not modelled as request values. Their conversion goes through their string form. Every JSON object is taken to convert to NaN, but an object whose own `toString` key holds a value that is not a function (such as `{"toString": 1}`) makes `isNaN` throw, since the inherited `valueOf` returns the object itself. The handler then fails with a server error instead of "Invalid input data". The request is still refused before the query.
- Concurrency and isolation between payments. Calls are modelled one at a time.
- The payment date column (server.js:216).
- JavaScript number coercion. Amounts and balances are integers. A missing or string-typed amount is not modelled.
- `SELECT` row order: `rows[0]` is taken without ORDER BY. The model takes table order.
- A database error is modelled as one failing statement per call. An UPDATE or INSERT that fails leaves none of its own writes.
