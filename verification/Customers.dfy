/** The corporate credit line of a customer. */
module Customers {
  import opened Tables
  import opened Storage
  import opened Billing

  class CustomersService {
    const db: Database

    constructor (db: Database)
      ensures this.db == db
    {
      this.db := db;
    }

    /** An operator sets the limit and the status. `ineligible` is a customer that
        does not exist or is not a business. */
    method UpsertCreditAccount(c: CustomerId, ineligible: Option<Error>, limit: int, status: CreditStatus) returns (answer: Result<CreditAccount>)
      modifies db
      ensures var before := old(db.Snapshot());
              var used := if c in before.accounts then before.accounts[c].used else 0;
              && answer == (if ineligible.Some? then Err(ineligible.value)
                            else if limit < used then Err(BadRequest)
                            else Ok(CreditAccount(limit, used, status)))
              && db.Snapshot() == (if answer.Ok? then UpsertCreditTx(before, c, limit, status) else before)
    {
      if ineligible.Some? { return Err(ineligible.value); }
      var used := if c in db.accounts then db.accounts[c].used else 0;
      if limit < used { return Err(BadRequest); }
      if c in db.accounts {
        db.accounts := db.accounts[c := db.accounts[c].(limit := limit, status := status)];
      } else {
        db.accounts := db.accounts[c := CreditAccount(limit, 0, status)];
      }
      answer := Ok(db.accounts[c]);
    }

    /** A customer asks for a line, or for more than an active one has, which stays
        as it is until an operator decides. */
    method RequestCreditAccount(c: CustomerId, ineligible: Option<Error>, limit: int) returns (answer: Result<CreditAccount>)
      modifies db
      ensures var before := old(db.Snapshot());
              && (ineligible.Some? ==> answer == Err(ineligible.value) && db.Snapshot() == before)
              && (ineligible.None? ==>
                    && db.Snapshot() == RequestCreditTx(before, c, limit)
                    && answer == (if c in before.accounts && before.accounts[c].status.Blocked? then Err(Conflict)
                                  else if c in before.accounts && before.accounts[c].status.Active? && limit <= before.accounts[c].limit
                                  then Err(BadRequest)
                                  else Ok(db.accounts[c])))
    {
      if ineligible.Some? { return Err(ineligible.value); }
      if c in db.accounts && db.accounts[c].status.Active? {
        return if limit <= db.accounts[c].limit then Err(BadRequest) else Ok(db.accounts[c]);
      }
      if c in db.accounts && db.accounts[c].status.Blocked? { return Err(Conflict); }
      var used := if c in db.accounts then db.accounts[c].used else 0;
      db.accounts := db.accounts[c := CreditAccount(limit, used, CreditStatus.Pending)];
      answer := Ok(db.accounts[c]);
    }

    method CloseCreditAccount(c: CustomerId)
      modifies db
      ensures db.Snapshot() == CloseCreditTx(old(db.Snapshot()), c)
    {
      if c !in db.accounts || db.accounts[c].status.Closed? { return; }
      db.accounts := db.accounts[c := db.accounts[c].(status := CreditStatus.Closed)];
      db.movements := db.movements + [Movement(c, MovementKind.Closed, 0, db.accounts[c].used)];
    }
  }
}
