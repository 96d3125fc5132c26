/**
 * What one call of the payment handler, and a series of calls, does to the tables.
 */
module PaymentProperties {
  import opened Wrappers
  import opened PaymentSpec

  /** A database error in BEGIN or in the customer lookup: the only ones that can
      precede the two early returns. */
  predicate FailsBeforeChecks(fault: Fault)
  {
    fault == FailAt(Begin) || fault == FailAt(SelectCustomer)
  }

  /** An unknown customer is reported as such (unless BEGIN or the lookup fail), no
      ROLLBACK is sent, and the tables are unchanged. */
  lemma NotFoundLeavesTablesUnchanged(db: Tables, req: Request, fault: Fault)
    requires req.custId !in db.owed
    ensures Outcome(db, req, fault) == if FailsBeforeChecks(fault) then StorageError else CustomerNotFound
    ensures !Sends(db, req, Rollback) && !Sends(db, req, SelectAccount)
    ensures After(db, req, fault) == db
  {
  }

  /** Paying more than is owed is refused before the card details are looked at:
      changing them does not change the outcome, and nothing is written. */
  lemma ExceedsOwedBeforeCredentials(db: Tables, req: Request, fault: Fault, card: string, expiry: string, cvc: string)
    requires req.custId in db.owed && req.amount > db.owed[req.custId]
    ensures Outcome(db, req, fault) == if FailsBeforeChecks(fault) then StorageError else ExceedsOwed
    ensures Outcome(db, req.(cardNumber := card, expiryDate := expiry, cvc := cvc), fault) == Outcome(db, req, fault)
    ensures !Sends(db, req, Rollback) && !Sends(db, req, SelectAccount)
    ensures After(db, req, fault) == db
  {
  }

  /** Without a database error, the credentials are refused exactly when the customer
      exists, the amount is within what is owed, and no `cust_bank` row has the
      customer's id and the request's card number, expiry date and CVC. */
  lemma IncorrectDetailsIff(db: Tables, req: Request)
    ensures Outcome(db, req, NoFault) == IncorrectDetails <==>
      req.custId in db.owed && req.amount <= db.owed[req.custId] &&
      forall i :: 0 <= i < |db.bank| ==> !Matches(db.bank[i], req)
  {
  }

  /** Without a database error, the payment is refused for lack of funds exactly when
      the checks before it pass and the first matching row holds less than the amount. */
  lemma InsufficientFundsIff(db: Tables, req: Request)
    ensures Outcome(db, req, NoFault) == InsufficientFunds <==>
      req.custId in db.owed && req.amount <= db.owed[req.custId] &&
      exists i :: IsFirstMatch(db.bank, req, i) && db.bank[i].balance < req.amount
  {
    if Outcome(db, req, NoFault) == InsufficientFunds {
      var i := FirstMatch(db.bank, req).value;
      assert IsFirstMatch(db.bank, req, i) && db.bank[i].balance < req.amount;
    }
    if req.custId in db.owed && req.amount <= db.owed[req.custId] &&
       exists i :: IsFirstMatch(db.bank, req, i) && db.bank[i].balance < req.amount
    {
      var i :| IsFirstMatch(db.bank, req, i) && db.bank[i].balance < req.amount;
      FirstMatchFindsFirst(db.bank, req, i);
    }
  }

  /** A payment succeeds exactly when the customer exists, the amount is within what
      is owed, some row matches all four credentials, the first such row holds at
      least the amount, and no statement the handler sends fails (a failing ROLLBACK
      is never sent on this path). */
  lemma SuccessIff(db: Tables, req: Request, fault: Fault)
    ensures Outcome(db, req, fault) == Success <==>
      (fault == NoFault || fault == FailAt(Rollback)) &&
      req.custId in db.owed && req.amount <= db.owed[req.custId] &&
      exists i :: IsFirstMatch(db.bank, req, i) && db.bank[i].balance >= req.amount
  {
    if Outcome(db, req, fault) == Success {
      var i := FirstMatch(db.bank, req).value;
      assert IsFirstMatch(db.bank, req, i) && db.bank[i].balance >= req.amount;
    }
    if (fault == NoFault || fault == FailAt(Rollback)) &&
       req.custId in db.owed && req.amount <= db.owed[req.custId] &&
       exists i :: IsFirstMatch(db.bank, req, i) && db.bank[i].balance >= req.amount
    {
      var i :| IsFirstMatch(db.bank, req, i) && db.bank[i].balance >= req.amount;
      FirstMatchFindsFirst(db.bank, req, i);
    }
  }

  /** Row `i` matches the request and no earlier row does. */
  predicate IsFirstMatch(rows: seq<BankRow>, req: Request, i: int)
  {
    0 <= i < |rows| && Matches(rows[i], req) && forall j :: 0 <= j < i ==> !Matches(rows[j], req)
  }

  /** The first matching row is the one `FirstMatch` finds. */
  lemma FirstMatchFindsFirst(rows: seq<BankRow>, req: Request, i: nat)
    requires IsFirstMatch(rows, req, i)
    ensures FirstMatch(rows, req) == Some(i)
  {
    assert FirstMatch(rows, req).Some?;
  }

  /** A successful payment takes the amount off the customer's owed balance and off
      every bank row of the customer, and appends exactly one payment record of the
      customer for the amount. */
  lemma SuccessEffect(db: Tables, req: Request, fault: Fault)
    requires Outcome(db, req, fault) == Success
    ensures var db' := After(db, req, fault);
      req.custId in db.owed && req.custId in db'.owed &&
      db'.owed[req.custId] == db.owed[req.custId] - req.amount &&
      |db'.bank| == |db.bank| &&
      (forall i :: 0 <= i < |db.bank| && db.bank[i].custId == req.custId ==>
        db'.bank[i] == db.bank[i].(balance := db.bank[i].balance - req.amount)) &&
      db'.payments == db.payments + [PaymentRecord(req.custId, req.amount)]
  {
  }

  /** Every outcome but success leaves the three tables exactly as they were, the
      database error of the catch path included. */
  lemma FailureLeavesTablesUnchanged(db: Tables, req: Request, fault: Fault)
    requires Outcome(db, req, fault) != Success
    ensures After(db, req, fault) == db
    ensures Outcome(db, req, fault) == StorageError <==> fault.FailAt? && Sends(db, req, fault.step)
  {
  }

  /** A failure in a statement the handler does not send changes nothing about the call. */
  lemma UnsentFaultIsHarmless(db: Tables, req: Request, fault: Fault)
    requires fault.FailAt? && !Sends(db, req, fault.step)
    ensures Outcome(db, req, fault) == Outcome(db, req, NoFault)
    ensures After(db, req, fault) == After(db, req, NoFault)
  {
  }

  /** Whatever the outcome: the set of customers is the same, every other customer's
      owed balance and bank rows are untouched, no row changes owner, and the payment
      table only grows, by at most one record. */
  lemma OtherCustomersUnchanged(db: Tables, req: Request, fault: Fault)
    ensures var db' := After(db, req, fault);
      db'.owed.Keys == db.owed.Keys &&
      (forall d :: d in db.owed && d != req.custId ==> db'.owed[d] == db.owed[d]) &&
      |db'.bank| == |db.bank| &&
      (forall i :: 0 <= i < |db.bank| ==> db'.bank[i].custId == db.bank[i].custId) &&
      (forall i :: 0 <= i < |db.bank| && db.bank[i].custId != req.custId ==> db'.bank[i] == db.bank[i]) &&
      db.payments <= db'.payments && |db'.payments| <= |db.payments| + 1
  {
  }

  /** A successful payment leaves the customer's owed balance and the balance of the
      row whose credentials matched at least zero, whatever the amount; with an amount
      of at least zero it raises neither. */
  lemma NonNegativeAfterSuccess(db: Tables, req: Request, fault: Fault)
    requires Outcome(db, req, fault) == Success
    ensures FirstMatch(db.bank, req).Some?
    ensures var db' := After(db, req, fault); var i := FirstMatch(db.bank, req).value;
      req.custId in db'.owed && 0 <= db'.owed[req.custId] && 0 <= db'.bank[i].balance
    ensures var db' := After(db, req, fault); var i := FirstMatch(db.bank, req).value;
      req.amount >= 0 ==>
        req.custId in db'.owed && db'.owed[req.custId] <= db.owed[req.custId] &&
        db'.bank[i].balance <= db.bank[i].balance
  {
  }

  /** Since the handler does not check the sign of the amount, a successful payment of
      a negative amount raises the customer's owed balance and every bank row of the
      customer. */
  lemma NegativeAmountRaisesBalances(db: Tables, req: Request, fault: Fault)
    requires req.amount < 0 && Outcome(db, req, fault) == Success
    ensures var db' := After(db, req, fault);
      req.custId in db.owed && db'.owed[req.custId] > db.owed[req.custId] &&
      forall i :: 0 <= i < |db.bank| && db.bank[i].custId == req.custId ==>
        db'.bank[i].balance > db.bank[i].balance
  {
  }

  /** Owed balances stay at least zero under any payment: an amount above the owed
      balance is refused, and a negative amount only raises it. */
  lemma OwedNonNegativePreserved(db: Tables, req: Request, fault: Fault)
    requires OwedNonNegative(db)
    ensures OwedNonNegative(After(db, req, fault))
  {
  }

  /** Bank balances stay at least zero under any payment, provided no customer has two
      bank rows; that proviso is itself preserved. */
  lemma BankNonNegativePreserved(db: Tables, req: Request, fault: Fault)
    requires BankNonNegative(db) && OneAccountPerCustomer(db)
    ensures BankNonNegative(After(db, req, fault)) && OneAccountPerCustomer(After(db, req, fault))
  {
    var db' := After(db, req, fault);
    if Outcome(db, req, fault) == Success {
      var k := FirstMatch(db.bank, req).value;
      forall i | 0 <= i < |db'.bank|
        ensures db'.bank[i].balance >= 0
      {
        if db.bank[i].custId == req.custId {
          assert i == k;
        }
      }
    }
  }

  /** Without the proviso, the debit of every row of the customer can overdraw a row
      whose balance was never checked: here the second card of customer 1 ends at -30. */
  lemma SecondAccountCanBeOverdrawn()
    ensures var db := Tables(map[1 := 100],
                             [BankRow(1, "4111", "12/27", "123", 500), BankRow(1, "5500", "01/28", "999", 10)],
                             []);
            var req := Request(1, "4111", "12/27", "123", 40);
            Outcome(db, req, NoFault) == Success && BankNonNegative(db) &&
            After(db, req, NoFault).bank[1].balance == -30
  {
  }

  /** Adding a record to the payment table adds its amount to its customer's total. */
  lemma {:induction false} PaidByAppend(ps: seq<PaymentRecord>, p: PaymentRecord, c: CustomerId)
    ensures PaidBy(ps + [p], c) == PaidBy(ps, c) + (if p.customerId == c then p.amount else 0)
  {
    assert (ps + [p])[..|ps|] == ps;
  }

  /** Each call keeps, for every customer, owed balance plus total paid constant, and
      for every bank row, its balance plus its customer's total paid constant: what a
      recorded payment takes off one side is exactly its amount. */
  lemma CallConservesTotals(db: Tables, req: Request, fault: Fault)
    ensures var db' := After(db, req, fault);
      |db'.bank| == |db.bank| &&
      (forall d :: d in db.owed ==>
        d in db'.owed && db'.owed[d] + PaidBy(db'.payments, d) == db.owed[d] + PaidBy(db.payments, d)) &&
      (forall i :: 0 <= i < |db.bank| ==>
        db'.bank[i].custId == db.bank[i].custId &&
        db'.bank[i].balance + PaidBy(db'.payments, db.bank[i].custId) ==
          db.bank[i].balance + PaidBy(db.payments, db.bank[i].custId))
  {
    if Outcome(db, req, fault) == Success {
      var p := PaymentRecord(req.custId, req.amount);
      forall d ensures PaidBy(db.payments + [p], d) == PaidBy(db.payments, d) + (if d == req.custId then req.amount else 0) {
        PaidByAppend(db.payments, p, d);
      }
    }
  }

  /** Over any series of calls, for every customer the decrease of the owed balance is
      the total of the payment records added for that customer, and likewise for the
      balance of every bank row; records already in the table stay. */
  lemma {:induction false} RunConservesTotals(db: Tables, calls: seq<Call>)
    ensures var end := Run(db, calls);
      db.payments <= end.payments && |end.bank| == |db.bank| &&
      (forall d :: d in db.owed ==>
        d in end.owed && db.owed[d] - end.owed[d] == PaidBy(end.payments, d) - PaidBy(db.payments, d)) &&
      (forall i :: 0 <= i < |db.bank| ==>
        end.bank[i].custId == db.bank[i].custId &&
        db.bank[i].balance - end.bank[i].balance ==
          PaidBy(end.payments, db.bank[i].custId) - PaidBy(db.payments, db.bank[i].custId))
    decreases |calls|
  {
    if calls != [] {
      var next := After(db, calls[0].req, calls[0].fault);
      CallConservesTotals(db, calls[0].req, calls[0].fault);
      OtherCustomersUnchanged(db, calls[0].req, calls[0].fault);
      RunConservesTotals(next, calls[1..]);
    }
  }

  /** Over any series of calls, whatever their amounts, owed balances stay at least
      zero. */
  lemma {:induction false} RunKeepsOwedNonNegative(db: Tables, calls: seq<Call>)
    requires OwedNonNegative(db)
    ensures OwedNonNegative(Run(db, calls))
    decreases |calls|
  {
    if calls != [] {
      OwedNonNegativePreserved(db, calls[0].req, calls[0].fault);
      RunKeepsOwedNonNegative(After(db, calls[0].req, calls[0].fault), calls[1..]);
    }
  }

  /** Four concrete requests: a payment of 40 against 100 owed and 500 in the bank; a
      payment of 150 against 100 owed; a wrong CVC; a payment of 50 against a bank
      balance of 30. */
  lemma PaymentScenarios()
    ensures var db := Tables(map[7 := 100], [BankRow(7, "4111", "12/27", "123", 500)], []);
            var ok := Request(7, "4111", "12/27", "123", 40);
            Outcome(db, ok, NoFault) == Success &&
            After(db, ok, NoFault) == Tables(map[7 := 60], [BankRow(7, "4111", "12/27", "123", 460)], [PaymentRecord(7, 40)])
    ensures var db := Tables(map[7 := 100], [BankRow(7, "4111", "12/27", "123", 500)], []);
            var req := Request(7, "4111", "12/27", "123", 150);
            Outcome(db, req, NoFault) == ExceedsOwed && After(db, req, NoFault) == db
    ensures var db := Tables(map[7 := 100], [BankRow(7, "4111", "12/27", "123", 500)], []);
            var req := Request(7, "4111", "12/27", "000", 40);
            Outcome(db, req, NoFault) == IncorrectDetails && After(db, req, NoFault) == db
    ensures var db := Tables(map[7 := 50], [BankRow(7, "4111", "12/27", "123", 30)], []);
            var req := Request(7, "4111", "12/27", "123", 50);
            Outcome(db, req, NoFault) == InsufficientFunds && After(db, req, NoFault) == db
  {
  }
}
