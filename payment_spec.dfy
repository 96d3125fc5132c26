/**
 * The tables the `/process-payment` handler reads and writes, and what one call of
 * the handler does to them, stated as functions of the tables before the call.
 *
 * Amounts and balances are whole numbers (cents). The handler runs one database
 * transaction: BEGIN, two SELECTs, then either two UPDATEs, an INSERT and COMMIT,
 * or a ROLLBACK. The transaction makes its writes all-or-nothing, so a call either
 * leaves the tables as they were or applies all three writes.
 */
module PaymentSpec {
  import opened Wrappers

  /** A customer id, as the handler passes it to its queries. */
  type CustomerId = int

  /** A `cust_bank` row. The customer id, card number, expiry date and CVC together
      act as the credential a payment must present. */
  datatype BankRow = BankRow(custId: CustomerId, cardNum: string, exDate: string, cvc: string, balance: int)

  /** A `payment` row (its date column is not modelled). */
  datatype PaymentRecord = PaymentRecord(customerId: CustomerId, amount: int)

  /** The database: `customer.owed_balance` by `customer_id` (one row per id),
      the `cust_bank` rows in table order and the `payment` rows in insertion order. */
  datatype Tables = Tables(owed: map<CustomerId, int>, bank: seq<BankRow>, payments: seq<PaymentRecord>)

  /** The fields of a payment request body. */
  datatype Request = Request(custId: CustomerId, cardNumber: string, expiryDate: string, cvc: string, amount: int)

  /** The handler's outcomes, one per response it sends. */
  datatype Result =
    | CustomerNotFound    // no `customer` row: "Customer not found."
    | ExceedsOwed         // amount above the owed balance: "Payment cannot exceed the amount owed."
    | IncorrectDetails    // no `cust_bank` row matches: "Incorrect payment details."
    | InsufficientFunds   // the matched row's balance is below the amount: "Insufficient bank balance."
    | Success             // all three writes committed: "Payment processed successfully"
    | StorageError        // a query threw; status 500, "Database error."

  /** The statements the handler sends on its client. `Rollback` stands for the two
      ROLLBACKs after a refusal; the one in the catch path is assumed to succeed, so
      a fault never names it. */
  datatype Step = Begin | SelectCustomer | SelectAccount | DebitBank | DebitOwed | InsertPayment | Commit | Rollback

  /** Which statement, if any, the database answers with an error. */
  datatype Fault = NoFault | FailAt(step: Step)

  /** The WHERE clause of the credential lookup: all four columns equal the request's. */
  predicate Matches(row: BankRow, req: Request)
  {
    row.custId == req.custId && row.cardNum == req.cardNumber &&
    row.exDate == req.expiryDate && row.cvc == req.cvc
  }

  /** The credential lookup followed by `rows[0]`: the index of the first matching row. */
  function FirstMatch(rows: seq<BankRow>, req: Request): (k: Option<nat>)
    ensures k.Some? ==> k.value < |rows| && Matches(rows[k.value], req)
    ensures k.Some? ==> forall j :: 0 <= j < k.value ==> !Matches(rows[j], req)
    ensures k.None? <==> forall j :: 0 <= j < |rows| ==> !Matches(rows[j], req)
  {
    if rows == [] then None
    else if Matches(rows[0], req) then Some(0)
    else match FirstMatch(rows[1..], req)
      case None => None
      case Some(i) => Some(i + 1)
  }

  /** `UPDATE cust_bank SET balance = balance - amount WHERE cust_id = c`: every row
      of customer `c` loses `amount`, whichever row the credentials matched. */
  function Debit(rows: seq<BankRow>, c: CustomerId, amount: int): seq<BankRow>
  {
    seq(|rows|, i requires 0 <= i < |rows| =>
      if rows[i].custId == c then rows[i].(balance := rows[i].balance - amount) else rows[i])
  }

  /** The verdict of the handler's checks, in the order it makes them, when no
      statement fails. */
  function Decide(db: Tables, req: Request): Result
  {
    if req.custId !in db.owed then CustomerNotFound
    else if req.amount > db.owed[req.custId] then ExceedsOwed
    else match FirstMatch(db.bank, req)
      case None => IncorrectDetails
      case Some(i) => if db.bank[i].balance >= req.amount then Success else InsufficientFunds
  }

  /** Whether the handler sends statement `s` when none of the statements fails.
      BEGIN and the customer lookup are always sent; the two early returns end the
      call there, without a ROLLBACK. */
  predicate Sends(db: Tables, req: Request, s: Step)
  {
    var d := Decide(db, req);
    match s
    case Begin | SelectCustomer => true
    case SelectAccount => d != CustomerNotFound && d != ExceedsOwed
    case Rollback => d == IncorrectDetails || d == InsufficientFunds
    case DebitBank | DebitOwed | InsertPayment | Commit => d == Success
  }

  /** The three writes of a successful payment. */
  function Committed(db: Tables, req: Request): Tables
    requires req.custId in db.owed
  {
    Tables(db.owed[req.custId := db.owed[req.custId] - req.amount],
           Debit(db.bank, req.custId, req.amount),
           db.payments + [PaymentRecord(req.custId, req.amount)])
  }

  /** What the handler reports: a database error if the failing statement is one
      it sends, otherwise the verdict of its checks. */
  function Outcome(db: Tables, req: Request, fault: Fault): Result
  {
    if fault.FailAt? && Sends(db, req, fault.step) then StorageError else Decide(db, req)
  }

  /** The tables after the call: the writes only when the transaction commits. */
  function After(db: Tables, req: Request, fault: Fault): Tables
  {
    if Outcome(db, req, fault) == Success then Committed(db, req) else db
  }

  /** On the path where the checks pass, the call reports a database error and
      writes nothing if one of the four statements of that path fails, and otherwise
      commits the three writes. */
  lemma CommitPath(db: Tables, req: Request, fault: Fault)
    requires Decide(db, req) == Success
    requires fault != FailAt(Begin) && fault != FailAt(SelectCustomer) && fault != FailAt(SelectAccount)
    ensures req.custId in db.owed
    ensures fault in {FailAt(DebitBank), FailAt(DebitOwed), FailAt(InsertPayment), FailAt(Commit)} ==>
      Outcome(db, req, fault) == StorageError && After(db, req, fault) == db
    ensures fault !in {FailAt(DebitBank), FailAt(DebitOwed), FailAt(InsertPayment), FailAt(Commit)} ==>
      Outcome(db, req, fault) == Success && After(db, req, fault) == Committed(db, req)
  {
  }

  /** The total of the payment records of customer `c`. */
  function PaidBy(ps: seq<PaymentRecord>, c: CustomerId): int
  {
    if ps == [] then 0
    else PaidBy(ps[..|ps| - 1], c) + (if ps[|ps| - 1].customerId == c then ps[|ps| - 1].amount else 0)
  }

  /** One call of the handler: its request and the statement (if any) that fails. */
  datatype Call = Call(req: Request, fault: Fault)

  /** The tables after a series of calls, one at a time. */
  function Run(db: Tables, calls: seq<Call>): Tables
    decreases |calls|
  {
    if calls == [] then db else Run(After(db, calls[0].req, calls[0].fault), calls[1..])
  }

  /** Every owed balance is at least zero. */
  predicate OwedNonNegative(db: Tables)
  {
    forall c :: c in db.owed ==> db.owed[c] >= 0
  }

  /** Every bank balance is at least zero. */
  predicate BankNonNegative(db: Tables)
  {
    forall i :: 0 <= i < |db.bank| ==> db.bank[i].balance >= 0
  }

  /** No customer has two `cust_bank` rows. */
  predicate OneAccountPerCustomer(db: Tables)
  {
    forall i, j :: 0 <= i < j < |db.bank| ==> db.bank[i].custId != db.bank[j].custId
  }
}
