/** The two collections, the writes MongoDB performs on them, each taken as one atomic
    step, and what each write does to the sums of a customer's transactions. */
module Store {
  import opened Collections
  import opened Records

  /** A snapshot of both collections. The counters stand for ObjectId generation:
      an id is never handed out twice. */
  datatype State = State(customers: map<Id, Customer>, txns: History, nextCustomer: Id, nextTxn: Id)

  const EMPTY := State(map[], map[], 0, 0)

  /** Ids in use were handed out before: the next ones are new. */
  predicate FreshIds(s: State) {
    && (forall k :: k in s.customers ==> k < s.nextCustomer)
    && (forall k :: k in s.txns ==> k < s.nextTxn)
  }

  /** The transactions recorded for one customer. */
  function Own(s: State, cid: Id): History {
    Restrict(s.txns, OwnedBy(cid))
  }

  predicate IsCustomerOf(s: State, cid: Id, merchant: string) {
    cid in s.customers && s.customers[cid].merchant == merchant
  }

  /** The documents any report for a merchant is computed from. */
  ghost predicate SameFor(s: State, m: State, merchant: string) {
    && Restrict(m.customers, CustomerOf(merchant)) == Restrict(s.customers, CustomerOf(merchant))
    && Restrict(m.txns, OfMerchant(merchant)) == Restrict(s.txns, OfMerchant(merchant))
  }

  function Cached(c: Customer, kind: Kind): real {
    if kind == Credit then c.totalCredit else c.totalPaid
  }

  // ---- Atomic writes, on snapshots -----------------------------------------------

  function WithCustomer(s: State, c: Customer): State {
    s.(customers := s.customers[s.nextCustomer := c], nextCustomer := s.nextCustomer + 1)
  }

  function WithTxn(s: State, t: Txn): State {
    s.(txns := s.txns[s.nextTxn := t], nextTxn := s.nextTxn + 1)
  }

  function WithAmount(s: State, tid: Id, amount: real, note: string): State {
    if tid in s.txns then s.(txns := s.txns[tid := s.txns[tid].(amount := amount, note := note, edited := true)]) else s
  }

  function WithoutTxn(s: State, tid: Id): State {
    s.(txns := s.txns - {tid})
  }

  /** The $inc of the three cached totals of one customer. */
  function WithIncrement(s: State, cid: Id, balance: real, credit: real, paid: real): State {
    if cid in s.customers then
      var c := s.customers[cid];
      s.(customers := s.customers[cid := c.(
        balance := c.balance + balance, totalCredit := c.totalCredit + credit, totalPaid := c.totalPaid + paid)])
    else s
  }

  /** The increment that posts a signed change of one kind. */
  function Posted(s: State, cid: Id, kind: Kind, delta: real): State {
    WithIncrement(s, cid, if kind == Credit then delta else -delta,
                  if kind == Credit then delta else 0.0, if kind == Payment then delta else 0.0)
  }

  function WithScore(s: State, cid: Id, score: int, category: Category): State {
    if cid in s.customers then
      s.(customers := s.customers[cid := s.customers[cid].(score := score, category := category)])
    else s
  }

  function WithoutCustomer(s: State, cid: Id): State {
    s.(customers := s.customers - {cid})
  }

  function WithoutHistory(s: State, cid: Id): State {
    s.(txns := s.txns - Own(s, cid).Keys)
  }

  // ---- Histories after a write ------------------------------------------------------

  lemma OwnAfterInsert(s: State, t: Txn, c: Id)
    requires s.nextTxn !in s.txns
    ensures Own(WithTxn(s, t), c) == if t.customer == c then Own(s, c)[s.nextTxn := t] else Own(s, c)
  {
  }

  lemma OwnAfterAmount(s: State, tid: Id, amount: real, note: string, c: Id)
    ensures Own(WithAmount(s, tid, amount, note), c)
         == if tid in Own(s, c) then Own(s, c)[tid := s.txns[tid].(amount := amount, note := note, edited := true)]
            else Own(s, c)
  {
  }

  lemma OwnAfterRemoval(s: State, tid: Id, c: Id)
    ensures Own(WithoutTxn(s, tid), c) == Own(s, c) - {tid}
  {
  }

  lemma OwnAfterCascade(s: State, cid: Id, c: Id)
    ensures Own(WithoutHistory(s, cid), c) == if c == cid then map[] else Own(s, c)
  {
  }

  // ---- Sums after a write -------------------------------------------------------------

  lemma SumAfterInsert(s: State, t: Txn, c: Id, kind: Kind)
    requires s.nextTxn !in s.txns
    ensures SumOf(Own(WithTxn(s, t), c), kind)
         == SumOf(Own(s, c), kind) + if t.customer == c then Share(t, kind) else 0.0
  {
    hide SumOf;
    OwnAfterInsert(s, t, c);
    if t.customer == c {
      SumPut(Own(s, c), s.nextTxn, t, kind);
    }
  }

  lemma SumAfterAmount(s: State, tid: Id, amount: real, note: string, c: Id, kind: Kind)
    ensures SumOf(Own(WithAmount(s, tid, amount, note), c), kind)
         == SumOf(Own(s, c), kind)
            + if tid in s.txns && s.txns[tid].customer == c && s.txns[tid].kind == kind
              then amount - s.txns[tid].amount else 0.0
  {
    hide SumOf;
    OwnAfterAmount(s, tid, amount, note, c);
    if tid in Own(s, c) {
      SumPut(Own(s, c), tid, s.txns[tid].(amount := amount, note := note, edited := true), kind);
    }
  }

  lemma SumAfterRemoval(s: State, tid: Id, c: Id, kind: Kind)
    ensures SumOf(Own(WithoutTxn(s, tid), c), kind)
         == SumOf(Own(s, c), kind)
            - if tid in s.txns && s.txns[tid].customer == c then Share(s.txns[tid], kind) else 0.0
  {
    hide SumOf;
    OwnAfterRemoval(s, tid, c);
    if tid in Own(s, c) {
      SumDrop(Own(s, c), tid, kind);
    } else {
      assert Own(s, c) - {tid} == Own(s, c);
    }
  }

  lemma SumAfterCascade(s: State, cid: Id, c: Id, kind: Kind)
    requires c != cid
    ensures SumOf(Own(WithoutHistory(s, cid), c), kind) == SumOf(Own(s, c), kind)
  {
    OwnAfterCascade(s, cid, c);
  }

  // ---- The collections themselves --------------------------------------------------------

  class Database {
    var customers: map<Id, Customer>
    var txns: History
    var nextCustomer: Id
    var nextTxn: Id

    function Snapshot(): State
      reads this
    {
      State(customers, txns, nextCustomer, nextTxn)
    }

    constructor ()
      ensures Snapshot() == EMPTY
    {
      customers, txns, nextCustomer, nextTxn := map[], map[], 0, 0;
    }

    method InsertCustomer(c: Customer) returns (id: Id)
      modifies this
      ensures Snapshot() == WithCustomer(old(Snapshot()), c) && id == old(nextCustomer)
      ensures FreshIds(old(Snapshot())) ==> id !in old(customers) && FreshIds(Snapshot())
    {
      id := nextCustomer;
      customers, nextCustomer := customers[id := c], nextCustomer + 1;
    }

    method InsertTxn(t: Txn)
      modifies this
      ensures Snapshot() == WithTxn(old(Snapshot()), t)
      ensures FreshIds(old(Snapshot())) ==> old(nextTxn) !in old(txns) && FreshIds(Snapshot())
    {
      txns, nextTxn := txns[nextTxn := t], nextTxn + 1;
    }

    method SetAmount(tid: Id, amount: real, note: string)
      modifies this
      ensures Snapshot() == WithAmount(old(Snapshot()), tid, amount, note)
    {
      if tid in txns {
        txns := txns[tid := txns[tid].(amount := amount, note := note, edited := true)];
      }
    }

    method DeleteTxn(tid: Id)
      modifies this
      ensures Snapshot() == WithoutTxn(old(Snapshot()), tid)
    {
      txns := txns - {tid};
    }

    method Increment(cid: Id, balance: real, credit: real, paid: real)
      modifies this
      ensures Snapshot() == WithIncrement(old(Snapshot()), cid, balance, credit, paid)
    {
      if cid in customers {
        var c := customers[cid];
        customers := customers[cid := c.(
          balance := c.balance + balance, totalCredit := c.totalCredit + credit, totalPaid := c.totalPaid + paid)];
      }
    }

    method SetScore(cid: Id, score: int, category: Category)
      modifies this
      ensures Snapshot() == WithScore(old(Snapshot()), cid, score, category)
    {
      if cid in customers {
        customers := customers[cid := customers[cid].(score := score, category := category)];
      }
    }

    method DeleteCustomer(cid: Id, merchant: string) returns (deleted: bool)
      modifies this
      ensures deleted == IsCustomerOf(old(Snapshot()), cid, merchant)
      ensures Snapshot() == if deleted then WithoutCustomer(old(Snapshot()), cid) else old(Snapshot())
    {
      deleted := cid in customers && customers[cid].merchant == merchant;
      if deleted {
        customers := customers - {cid};
      }
    }

    method DeleteHistory(cid: Id)
      modifies this
      ensures Snapshot() == WithoutHistory(old(Snapshot()), cid)
    {
      txns := txns - Restrict(txns, OwnedBy(cid)).Keys;
    }
  }
}
