/** The documents of the two collections. */
module Records {
  import opened Collections

  type Id = nat

  datatype Kind = Credit | Payment

  datatype Txn = Txn(
    merchant: string,
    customer: Id,
    customerName: string,
    kind: Kind,
    amount: real,
    note: string,
    date: int,
    edited: bool)

  datatype Category = Excellent | LowRisk | MediumRisk | HighRisk | Defaulter

  datatype Customer = Customer(
    merchant: string,
    name: string,
    phone: string,
    address: string,
    balance: real,
    totalCredit: real,
    totalPaid: real,
    score: int,
    category: Category)

  /** A set of transactions, normally those of one customer or of one merchant. */
  type History = map<Id, Txn>

  function Amount(t: Txn): real { t.amount }

  function IsKind(kind: Kind): Txn -> bool { (t: Txn) => t.kind == kind }

  function OwnedBy(cid: Id): Txn -> bool { (t: Txn) => t.customer == cid }

  function OfMerchant(merchant: string): Txn -> bool { (t: Txn) => t.merchant == merchant }

  function CustomerOf(merchant: string): Customer -> bool { (c: Customer) => c.merchant == merchant }

  function BalanceOf(c: Customer): real { c.balance }

  predicate Owes(c: Customer) { c.balance > 0.0 }

  /** The sum of the amounts of one kind. */
  ghost function SumOf(h: History, kind: Kind): real {
    Total(Restrict(h, IsKind(kind)), Amount)
  }

  ghost function NumOf(h: History, kind: Kind): nat {
    |Restrict(h, IsKind(kind))|
  }

  ghost function Net(h: History): real {
    SumOf(h, Credit) - SumOf(h, Payment)
  }

  ghost predicate Positive(h: History) {
    forall k :: k in h ==> h[k].amount > 0.0
  }

  // ---- How one document moves the sums and the counts ---------------------------

  function Share(t: Txn, kind: Kind): real {
    if t.kind == kind then t.amount else 0.0
  }

  lemma SumPut(h: History, k: Id, t: Txn, kind: Kind)
    requires k in h ==> h[k].kind == t.kind
    ensures SumOf(h[k := t], kind) == SumOf(h, kind) - (if k in h then Share(h[k], kind) else 0.0) + Share(t, kind)
  {
    RestrictPut(h, IsKind(kind), k, t);
    var part := Restrict(h, IsKind(kind));
    if t.kind == kind {
      TotalPut(part, Amount, k, t);
    } else {
      assert part - {k} == part;
    }
  }

  lemma SumDrop(h: History, k: Id, kind: Kind)
    requires k in h
    ensures SumOf(h - {k}, kind) == SumOf(h, kind) - Share(h[k], kind)
  {
    SumPut(h - {k}, k, h[k], kind);
    assert (h - {k})[k := h[k]] == h;
  }

  lemma NumPut(h: History, k: Id, t: Txn, kind: Kind)
    requires k in h ==> h[k].kind == t.kind
    ensures NumOf(h[k := t], kind) == NumOf(h, kind) + if k !in h && t.kind == kind then 1 else 0
  {
    RestrictPut(h, IsKind(kind), k, t);
    var part := Restrict(h, IsKind(kind));
    SizePut(part, k, t);
    if t.kind != kind {
      assert part - {k} == part;
    }
  }

  /** With positive amounts a sum vanishes exactly when nothing of the kind was recorded. */
  lemma SumSign(h: History, kind: Kind)
    requires Positive(h)
    ensures SumOf(h, kind) >= 0.0
    ensures SumOf(h, kind) == 0.0 <==> NumOf(h, kind) == 0
  {
    var part := Restrict(h, IsKind(kind));
    TotalNonNegative(part, Amount);
    if part != map[] {
      var k :| k in part;
      assert Amount(part[k]) > 0.0;
    }
  }

  lemma KindPresent(h: History, k: Id)
    requires k in h
    ensures NumOf(h, h[k].kind) > 0
  {
    assert k in Restrict(h, IsKind(h[k].kind));
  }

  lemma SomeKind(h: History)
    ensures NumOf(h, Credit) == 0 && NumOf(h, Payment) == 0 <==> h == map[]
  {
  }
}
