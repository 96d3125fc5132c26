/**
 * The `/process-payment` handler as a method on the database it changes.
 */
module PaymentLedger {
  import opened PaymentSpec

  /** The three tables, updated in place by the handler's statements. */
  class Ledger {
    var owed: map<CustomerId, int>
    var bank: seq<BankRow>
    var payments: seq<PaymentRecord>

    /** The tables as a value. */
    function State(): Tables
      reads this
    {
      Tables(owed, bank, payments)
    }

    constructor (init: Tables)
      ensures State() == init
    {
      owed, bank, payments := init.owed, init.bank, init.payments;
    }

    /** The catch path: ROLLBACK to the tables at BEGIN and report a database error. */
    method Abort(saved: Tables) returns (r: Result)
      modifies this
      ensures State() == saved && r == StorageError
    {
      owed, bank, payments := saved.owed, saved.bank, saved.payments;
      r := StorageError;
    }

    /** The three writes of a payment the checks let through, then COMMIT; a failing
        statement takes the catch path. */
    method Pay(saved: Tables, req: Request, fault: Fault) returns (r: Result)
      requires State() == saved && Decide(saved, req) == Success
      requires fault != FailAt(Begin) && fault != FailAt(SelectCustomer) && fault != FailAt(SelectAccount)
      modifies this
      ensures r == Outcome(saved, req, fault) && State() == After(saved, req, fault)
    {
      CommitPath(saved, req, fault);
      ghost var committed := Committed(saved, req);
      if fault == FailAt(DebitBank) {
        r := Abort(saved);
        return;
      }
      bank := Debit(bank, req.custId, req.amount);

      if fault == FailAt(DebitOwed) {
        r := Abort(saved);
        return;
      }
      owed := owed[req.custId := owed[req.custId] - req.amount];

      if fault == FailAt(InsertPayment) {
        r := Abort(saved);
        return;
      }
      payments := payments + [PaymentRecord(req.custId, req.amount)];

      if fault == FailAt(Commit) {
        r := Abort(saved);
        return;
      }
      assert State() == committed;
      r := Success;
    }

    /** Process one payment request; `fault` names the statement the database
        rejects, if any. */
    method ProcessPayment(req: Request, fault: Fault) returns (r: Result)
      modifies this
      ensures r == Outcome(old(State()), req, fault)
      ensures State() == After(old(State()), req, fault)
      ensures r != Success ==> State() == old(State())
      ensures old(payments) <= payments
    {
      // BEGIN: what a ROLLBACK returns to
      var saved := State();
      ghost var verdict := Decide(saved, req);
      if fault == FailAt(Begin) {
        r := Abort(saved);
        return;
      }

      if fault == FailAt(SelectCustomer) {
        r := Abort(saved);
        return;
      }
      // the two early returns send no ROLLBACK; nothing has been written yet
      if req.custId !in owed {
        assert verdict == CustomerNotFound;
        return CustomerNotFound;
      }
      if req.amount > owed[req.custId] {
        assert verdict == ExceedsOwed;
        return ExceedsOwed;
      }

      if fault == FailAt(SelectAccount) {
        r := Abort(saved);
        return;
      }
      var found := FirstMatch(bank, req);
      if found.Some? {
        if bank[found.value].balance >= req.amount {
          assert verdict == Success;
          r := Pay(saved, req, fault);
        } else {
          assert verdict == InsufficientFunds;
          if fault == FailAt(Rollback) {
            r := Abort(saved);
            return;
          }
          owed, bank, payments := saved.owed, saved.bank, saved.payments;
          r := InsufficientFunds;
        }
      } else {
        assert verdict == IncorrectDetails;
        if fault == FailAt(Rollback) {
          r := Abort(saved);
          return;
        }
        owed, bank, payments := saved.owed, saved.bank, saved.payments;
        r := IncorrectDetails;
      }
    }
  }
}
