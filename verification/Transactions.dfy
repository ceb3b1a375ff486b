/** Transactions: recording, correcting and deleting them, each followed by the
    increment of the cached totals and by a rescoring. */
module Transactions {
  import opened Collections
  import opened Records
  import opened Scoring
  import opened Store
  import opened Customers

  /** The two transaction types the API accepts by name. */
  function KindOf(txnType: string): Kind {
    if txnType == "credit" then Credit else Payment
  }

  predicate KnownType(txnType: string) {
    txnType == "credit" || txnType == "payment"
  }

  // ---- What the operations do to a snapshot --------------------------------------------

  predicate IsTxnOf(s: State, tid: Id, merchant: string) {
    tid in s.txns && s.txns[tid].merchant == merchant
  }

  function AddRefusal(s: State, merchant: string, cid: Id, txnType: string, amount: real): Reply {
    if amount <= 0.0 then Refused(AmountNotPositive)
    else if !KnownType(txnType) then Refused(InvalidType)
    else if !IsCustomerOf(s, cid, merchant) then Refused(CustomerNotFound)
    else Done
  }

  function NewTxn(s: State, merchant: string, cid: Id, kind: Kind, amount: real, note: string, at: int): Txn
    requires cid in s.customers
  {
    Txn(merchant, cid, s.customers[cid].name, kind, amount, note, at, false)
  }

  /** Insert the document and post its amount. */
  function Recorded(s: State, merchant: string, cid: Id, kind: Kind, amount: real, note: string, at: int): State
    requires cid in s.customers
  {
    Posted(WithTxn(s, NewTxn(s, merchant, cid, kind, amount, note, at)), cid, kind, amount)
  }

  /** Set the new amount and post the difference. */
  function Corrected(s: State, tid: Id, amount: real, note: string): State
    requires tid in s.txns
  {
    var t := s.txns[tid];
    Posted(WithAmount(s, tid, amount, note), t.customer, t.kind, amount - t.amount)
  }

  /** Delete the document and post its amount back. */
  function Reversed(s: State, tid: Id): State
    requires tid in s.txns
  {
    var t := s.txns[tid];
    Posted(WithoutTxn(s, tid), t.customer, t.kind, -t.amount)
  }

  ghost function TxnAdded(s: State, merchant: string, cid: Id, txnType: string, amount: real, note: string,
                          at: int, scoredAt: int): State
  {
    if AddRefusal(s, merchant, cid, txnType, amount).Refused? then s
    else Rescored(Recorded(s, merchant, cid, KindOf(txnType), amount, note, at), cid, scoredAt)
  }

  ghost function TxnEdited(s: State, tid: Id, merchant: string, amount: real, note: string, scoredAt: int): State {
    if IsTxnOf(s, tid, merchant) then Rescored(Corrected(s, tid, amount, note), s.txns[tid].customer, scoredAt) else s
  }

  ghost function TxnDeleted(s: State, tid: Id, merchant: string, scoredAt: int): State {
    if IsTxnOf(s, tid, merchant) then Rescored(Reversed(s, tid), s.txns[tid].customer, scoredAt) else s
  }

  // ---- The operations ---------------------------------------------------------------------

  method AddTransaction(db: Database, merchant: string, cid: Id, txnType: string, amount: real, note: string,
                        at: int, scoredAt: int) returns (reply: Reply)
    modifies db
    ensures db.Snapshot() == TxnAdded(old(db.Snapshot()), merchant, cid, txnType, amount, note, at, scoredAt)
    ensures reply == if amount <= 0.0 then Refused(AmountNotPositive)
                     else if txnType != "credit" && txnType != "payment" then Refused(InvalidType)
                     else if cid !in old(db.customers) || old(db.customers)[cid].merchant != merchant
                     then Refused(CustomerNotFound)
                     else NewBalance(old(db.customers)[cid].balance + if txnType == "credit" then amount else -amount)
    ensures reply.Refused? ==> db.Snapshot() == old(db.Snapshot())
    ensures reply.NewBalance? ==>
              && cid in db.customers && db.customers[cid].balance == reply.balance
              && db.txns == old(db.txns)[old(db.nextTxn) := Txn(
                   merchant, cid, old(db.customers)[cid].name, if txnType == "credit" then Credit else Payment,
                   amount, note, at, false)]
  {
    hide Score;
    if amount <= 0.0 {
      return Refused(AmountNotPositive);
    }
    if txnType != "credit" && txnType != "payment" {
      return Refused(InvalidType);
    }
    if !(cid in db.customers && db.customers[cid].merchant == merchant) {
      return Refused(CustomerNotFound);
    }
    var customer := db.customers[cid];
    db.InsertTxn(Txn(merchant, cid, customer.name, if txnType == "credit" then Credit else Payment,
                     amount, note, at, false));

    var balanceDelta := if txnType == "credit" then amount else -amount;
    var creditDelta := if txnType == "credit" then amount else 0.0;
    var paidDelta := if txnType == "payment" then amount else 0.0;
    db.Increment(cid, balanceDelta, creditDelta, paidDelta);
    var _, _ := ComputeCreditScore(db, cid, scoredAt);
    reply := NewBalance(db.customers[cid].balance);
  }

  method EditTransaction(db: Database, tid: Id, merchant: string, newAmount: real, newNote: string, scoredAt: int)
      returns (reply: Reply)
    modifies db
    ensures db.Snapshot() == TxnEdited(old(db.Snapshot()), tid, merchant, newAmount, newNote, scoredAt)
    ensures reply == if tid in old(db.txns) && old(db.txns)[tid].merchant == merchant then Done
                     else Refused(TransactionNotFound)
    ensures reply.Refused? ==> db.Snapshot() == old(db.Snapshot())
    ensures reply.Done? ==>
              var t := old(db.txns)[tid];
              && db.txns == old(db.txns)[tid := t.(amount := newAmount, note := newNote, edited := true)]
              && db.customers.Keys == old(db.customers).Keys
              && (t.customer in db.customers ==>
                    db.customers[t.customer].balance == old(db.customers)[t.customer].balance
                      + if t.kind == Credit then newAmount - t.amount else t.amount - newAmount)
  {
    hide Score;
    if !(tid in db.txns && db.txns[tid].merchant == merchant) {
      return Refused(TransactionNotFound);
    }
    var txn := db.txns[tid];
    var balanceDelta, creditDelta, paidDelta;
    if txn.kind == Credit {
      balanceDelta := newAmount - txn.amount;
      creditDelta := newAmount - txn.amount;
      paidDelta := 0.0;
    } else {
      balanceDelta := -(newAmount - txn.amount);
      creditDelta := 0.0;
      paidDelta := newAmount - txn.amount;
    }
    db.SetAmount(tid, newAmount, newNote);
    db.Increment(txn.customer, balanceDelta, creditDelta, paidDelta);
    var _, _ := ComputeCreditScore(db, txn.customer, scoredAt);
    reply := Done;
  }

  method DeleteTransaction(db: Database, tid: Id, merchant: string, scoredAt: int) returns (reply: Reply)
    modifies db
    ensures db.Snapshot() == TxnDeleted(old(db.Snapshot()), tid, merchant, scoredAt)
    ensures reply == if tid in old(db.txns) && old(db.txns)[tid].merchant == merchant then Done
                     else Refused(TransactionNotFound)
    ensures reply.Refused? ==> db.Snapshot() == old(db.Snapshot())
    ensures reply.Done? ==>
              var t := old(db.txns)[tid];
              && db.txns == old(db.txns) - {tid}
              && db.customers.Keys == old(db.customers).Keys
              && (t.customer in db.customers ==>
                    db.customers[t.customer].balance == old(db.customers)[t.customer].balance
                      + if t.kind == Credit then -t.amount else t.amount)
  {
    hide Score;
    if !(tid in db.txns && db.txns[tid].merchant == merchant) {
      return Refused(TransactionNotFound);
    }
    var txn := db.txns[tid];
    var balanceDelta := if txn.kind == Credit then -txn.amount else txn.amount;
    var creditDelta := if txn.kind == Credit then -txn.amount else 0.0;
    var paidDelta := if txn.kind == Payment then -txn.amount else 0.0;
    db.DeleteTxn(tid);
    db.Increment(txn.customer, balanceDelta, creditDelta, paidDelta);
    var _, _ := ComputeCreditScore(db, txn.customer, scoredAt);
    reply := Done;
  }

  /** The transactions of a merchant, or of one of its customers, newest first. */
  method GetTransactions(db: Database, merchant: string, cid: Selection) returns (docs: seq<Txn>)
    ensures Lists(docs, Selected(db.Snapshot(), merchant, cid))
    ensures forall i, j :: 0 <= i < j < |docs| ==> docs[i].date >= docs[j].date
    ensures forall t :: t in docs ==>
              t in db.txns.Values && t.merchant == merchant && (cid.Only? ==> t.customer == cid.cid)
    ensures forall k ::
              k in db.txns && db.txns[k].merchant == merchant && (cid.Only? ==> db.txns[k].customer == cid.cid) ==>
                db.txns[k] in docs
    ensures cid.All? ==>
              var book := Restrict(db.txns, OfMerchant(merchant));
              && |docs| == |set k | k in db.txns && db.txns[k].merchant == merchant|
              && Sum(Filter(docs, IsKind(Credit)), Amount) == SumOf(book, Credit)
              && Sum(Filter(docs, IsKind(Payment)), Amount) == SumOf(book, Payment)
  {
    docs := FindSorted(Selected(db.Snapshot(), merchant, cid), (t: Txn) => -t.date);
    ListingSelects(docs, db.Snapshot(), merchant, cid);
    if cid.All? {
      ListingTotals(docs, db.Snapshot(), merchant);
    }
  }

  lemma ListingSelects(docs: seq<Txn>, s: State, merchant: string, cid: Selection)
    requires Lists(docs, Selected(s, merchant, cid))
    ensures forall t :: t in docs ==>
              t in s.txns.Values && t.merchant == merchant && (cid.Only? ==> t.customer == cid.cid)
    ensures forall k ::
              k in s.txns && s.txns[k].merchant == merchant && (cid.Only? ==> s.txns[k].customer == cid.cid) ==>
                s.txns[k] in docs
  {
    hide Lists;
    var chosen := Selected(s, merchant, cid);
    forall t | t in docs
      ensures t in s.txns.Values && t.merchant == merchant && (cid.Only? ==> t.customer == cid.cid)
    {
      var i :| 0 <= i < |docs| && docs[i] == t;
      ListedDocument(docs, chosen, i);
    }
    forall k | k in s.txns && s.txns[k].merchant == merchant && (cid.Only? ==> s.txns[k].customer == cid.cid)
      ensures s.txns[k] in docs
    {
      var i := ListedIndex(docs, chosen, k);
    }
  }

  /** The whole listing of a merchant: its length and its sums. */
  lemma ListingTotals(docs: seq<Txn>, s: State, merchant: string)
    requires Lists(docs, Selected(s, merchant, All))
    ensures |docs| == |set k | k in s.txns && s.txns[k].merchant == merchant|
    ensures forall kind ::
              Sum(Filter(docs, IsKind(kind)), Amount) == SumOf(Restrict(s.txns, OfMerchant(merchant)), kind)
  {
    hide Lists, SumOf;
    var book := Restrict(s.txns, OfMerchant(merchant));
    ListedSize(docs, book);
    assert book.Keys == set k | k in s.txns && s.txns[k].merchant == merchant;
    forall kind { ListedKind(docs, book, kind); }
  }

  datatype Selection = All | Only(cid: Id)

  function Selected(s: State, merchant: string, cid: Selection): History {
    var theirs := Restrict(s.txns, OfMerchant(merchant));
    if cid.All? then theirs else Restrict(theirs, OwnedBy(cid.cid))
  }
}
