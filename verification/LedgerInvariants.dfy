/**
 What every billing transaction keeps: the capture and refund ledger of each
 payment, the money behind an order's payment status, and the corporate credit
 lines.
 */
module LedgerInvariants {
  import opened Tables
  import opened Sums
  import opened Billing

  // ----- weights of the ledger -----

  /** Money the order collected, whether or not it was returned since. */
  function CollectedWeight(o: OrderId): Payment -> int {
    (p: Payment) => if p.order == o && (Settled(p) || p.status.Refunded?) then p.amount else 0
  }

  function RefundedWeight(o: OrderId): Payment -> int {
    (p: Payment) => if p.order == o && p.status.Refunded? then p.amount else 0
  }

  function CaptureWeight(p: PaymentId): Transaction -> int {
    (t: Transaction) => if t.payment == p && t.kind.Capture? && t.status.Success? then 1 else 0
  }

  function RefundOutWeight(p: PaymentId): Transaction -> int {
    (t: Transaction) => if t.payment == p && t.kind.RefundOut? && t.status.Success? then t.amount else 0
  }

  function DrawnWeight(c: CustomerId): Movement -> int {
    (m: Movement) => if m.customer == c && m.kind.Authorization? then m.amount else 0
  }

  function LastBalance(rows: seq<Movement>, c: CustomerId): Option<int> {
    if rows == [] then None
    else if rows[|rows| - 1].customer == c then Some(rows[|rows| - 1].balanceAfter)
    else LastBalance(rows[..|rows| - 1], c)
  }

  // ----- invariants -----

  ghost predicate ChannelConsistent(p: Payment) {
    match p.channel
    case Booked => ManualMeans(p.means) && (p.status.Authorized? || p.status.Refunded?)
    case Checkout(answered) => p.means.Card? && (!answered ==> p.status.Pending?)
    case Cardnet(open) => p.means.Card? && !p.status.Authorized? && (!open ==> !Terminal(p.status))
  }

  ghost predicate LedgerRowsExist(db: Db) {
    && (forall p :: 0 <= p < |db.payments| ==>
          db.payments[p].order < |db.orders| && db.payments[p].amount > 0 && ChannelConsistent(db.payments[p]))
    && (forall t :: 0 <= t < |db.transactions| ==> db.transactions[t].payment < |db.payments|)
    && (forall r :: 0 <= r < |db.refunds| ==>
          && db.refunds[r].payment < |db.payments| && db.refunds[r].amount > 0
          && db.refunds[r].order == db.payments[db.refunds[r].payment].order)
  }

  /** One payment's book of captures and refunds. */
  ghost predicate PaymentBalanced(db: Db, p: PaymentId)
    requires p < |db.payments|
  {
    var payment := db.payments[p];
    var returned := Sum(db.refunds, ReturnedWeight(p));
    && Sum(db.transactions, CaptureWeight(p)) == (if payment.channel.Cardnet? && Terminal(payment.status) then 1 else 0)
    && Sum(db.refunds, CommittedWeight(p)) <= payment.amount
    && Sum(db.transactions, RefundOutWeight(p)) == returned
    && (payment.status.Refunded? <==> returned >= payment.amount)
    && ((exists r :: 0 <= r < |db.refunds| && db.refunds[r].payment == p) ==>
          !payment.means.CorporateCredit? && (Terminal(payment.status) || payment.status.Authorized?))
  }

  ghost predicate PaymentsBalanced(db: Db) {
    forall p: nat :: p < |db.payments| ==> PaymentBalanced(db, p)
  }

  /** An order that may be dispatched has collected its whole total. */
  ghost predicate Backed(db: Db, o: OrderId)
    requires o < |db.orders|
  {
    Dispatchable(db.orders[o].paymentStatus) ==> CoveredBy(db.orders[o], Sum(db.payments, CollectedWeight(o)))
  }

  ghost predicate OrdersBacked(db: Db) {
    forall o: nat :: o < |db.orders| ==> Backed(db, o)
  }

  ghost predicate CreditLineSound(db: Db, c: CustomerId)
    requires c in db.accounts
  {
    var account := db.accounts[c];
    && (account.status.Active? ==> account.used <= account.limit)
    && account.used == Sum(db.movements, DrawnWeight(c))
    && account.used == (if LastBalance(db.movements, c).Some? then LastBalance(db.movements, c).value else 0)
  }

  ghost predicate CreditSound(db: Db) {
    && (forall m :: 0 <= m < |db.movements| ==> db.movements[m].customer in db.accounts)
    && (forall c :: c in db.accounts ==> CreditLineSound(db, c))
  }

  ghost predicate LedgerInv(db: Db) {
    LedgerRowsExist(db) && PaymentsBalanced(db) && OrdersBacked(db) && CreditSound(db)
  }

  // ----- monotone histories -----

  /** From one state to a later one: payments keep their order, means and
      amount; a settled payment stays settled until it is refunded; a refund
      leaves Pending once; booked transactions and movements stay. */
  ghost predicate LedgerHistory(db: Db, next: Db) {
    && |db.orders| <= |next.orders| && |db.payments| <= |next.payments| && |db.refunds| <= |next.refunds|
    && db.transactions <= next.transactions && db.movements <= next.movements
    && (forall o :: 0 <= o < |db.orders| ==> next.orders[o].total == db.orders[o].total && next.orders[o].customer == db.orders[o].customer)
    && (forall p :: 0 <= p < |db.payments| ==>
          && next.payments[p] == db.payments[p].(status := next.payments[p].status, channel := next.payments[p].channel)
          && (db.payments[p].status.Paid? ==> Terminal(next.payments[p].status))
          && (db.payments[p].status.Refunded? ==> next.payments[p].status.Refunded?)
          && (Settled(db.payments[p]) ==> Settled(next.payments[p]) || next.payments[p].status.Refunded?))
    && (forall r :: 0 <= r < |db.refunds| ==>
          && next.refunds[r] == db.refunds[r].(status := next.refunds[r].status)
          && (!db.refunds[r].status.Pending? ==> next.refunds[r] == db.refunds[r]))
  }

  lemma LedgerHistoryTransitive(a: Db, b: Db, c: Db)
    requires LedgerHistory(a, b) && LedgerHistory(b, c)
    ensures LedgerHistory(a, c)
  {
  }

  /** Collected money never shrinks. */
  lemma CollectedGrows(db: Db, next: Db, o: OrderId)
    requires LedgerRowsExist(db) && LedgerRowsExist(next) && LedgerHistory(db, next)
    ensures Sum(db.payments, CollectedWeight(o)) <= Sum(next.payments, CollectedWeight(o))
  {
    SumMonotone(db.payments, next.payments, CollectedWeight(o), CollectedWeight(o));
  }

  /** Settled money is collected money. */
  lemma SettledIsCollected(db: Db, o: OrderId)
    requires LedgerRowsExist(db)
    ensures SettledTotal(db, o) + Sum(db.payments, RefundedWeight(o)) == Sum(db.payments, CollectedWeight(o))
    ensures SettledTotal(db, o) <= Sum(db.payments, CollectedWeight(o))
  {
    SumPointwise(db.payments, SettledWeight(o), RefundedWeight(o), CollectedWeight(o));
    SumNonNegative(db.payments, RefundedWeight(o));
  }

  /** An order whose payment status is only ever set by SyncTx stays backed. */
  lemma BackedStays(db: Db, next: Db)
    requires LedgerRowsExist(db) && LedgerRowsExist(next) && LedgerHistory(db, next) && OrdersBacked(db)
    requires forall o: nat :: o < |next.orders| && Dispatchable(next.orders[o].paymentStatus) ==>
                               || (o < |db.orders| && Dispatchable(db.orders[o].paymentStatus))
                               || CoveredBy(next.orders[o], SettledTotal(next, o))
    ensures OrdersBacked(next)
  {
    forall o: nat | o < |next.orders| ensures Backed(next, o) {
      SettledIsCollected(next, o);
      if o < |db.orders| {
        assert Backed(db, o);
        CollectedGrows(db, next, o);
      }
    }
  }
}
