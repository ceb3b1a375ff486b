/** The dashboard's summary figures and how they reconcile with the ledger. */
module Analytics {
  import opened Collections
  import opened Records
  import opened Store
  import opened Ledger
  import opened Customers

  // ---- Summary figures -----------------------------------------------------------------------

  datatype Stats = Stats(
    totalCustomers: nat,
    defaulters: nat,
    totalOutstanding: real,
    totalCredit: real,
    totalPayment: real,
    collectionRate: real)

  /** rate is how many hundredths of the credit were paid; without credit it is 0. */
  predicate IsPercentage(rate: real, payment: real, credit: real) {
    if credit > 0.0 then rate * credit == 100.0 * payment else rate == 0.0
  }

  /** The collection rate in percent, before rounding. */
  function Rate(payment: real, credit: real): real {
    if credit > 0.0 then payment / credit * 100.0 else 0.0
  }

  lemma RateIsPercentage(payment: real, credit: real)
    ensures IsPercentage(Rate(payment, credit), payment, credit)
  {
    if credit > 0.0 {
      var share := payment / credit;
      assert share * credit == payment;
      assert share * 100.0 * credit == 100.0 * (share * credit);
    }
  }

  /** stats holds the counts and sums over a merchant's customers and transactions. */
  ghost predicate Describes(stats: Stats, clients: map<Id, Customer>, book: History) {
    && stats.totalCustomers == |clients|
    && stats.defaulters == |Restrict(clients, Owes)|
    && stats.totalOutstanding == Total(Restrict(clients, Owes), BalanceOf)
    && stats.totalCredit == SumOf(book, Credit)
    && stats.totalPayment == SumOf(book, Payment)
    && stats.collectionRate == Rate(SumOf(book, Payment), SumOf(book, Credit))
  }

  method GetSummaryStats(db: Database, merchant: string) returns (stats: Stats)
    ensures Describes(stats, Restrict(db.customers, CustomerOf(merchant)), Restrict(db.txns, OfMerchant(merchant)))
    ensures stats.totalCustomers == |set k | k in db.customers && db.customers[k].merchant == merchant|
    ensures stats.defaulters
         == |set k | k in db.customers && db.customers[k].merchant == merchant && db.customers[k].balance > 0.0|
    ensures IsPercentage(stats.collectionRate, stats.totalPayment, stats.totalCredit)
  {
    hide Lists, Rate, IsPercentage, Total, SumOf, Restrict, Filter, Sum;
    var customers := Find(Restrict(db.customers, CustomerOf(merchant)));
    var owing := Filter(customers, Owes);
    var txns := Find(Restrict(db.txns, OfMerchant(merchant)));
    var totalCredit := Sum(Filter(txns, IsKind(Credit)), Amount);
    var totalPayment := Sum(Filter(txns, IsKind(Payment)), Amount);
    stats := Stats(|customers|, |owing|, Sum(owing, BalanceOf), totalCredit, totalPayment,
                   Rate(totalPayment, totalCredit));

    ghost var clients := Restrict(db.customers, CustomerOf(merchant));
    ghost var book := Restrict(db.txns, OfMerchant(merchant));
    ListedSize(customers, clients);
    ListedFilter(customers, clients, Owes);
    ListedSize(owing, Restrict(clients, Owes));
    ListedSum(owing, Restrict(clients, Owes), BalanceOf);
    ListedKind(txns, book, Credit);
    ListedKind(txns, book, Payment);
    CountsOf(db.customers, merchant);
    RateIsPercentage(totalPayment, totalCredit);
  }

  lemma CountsOf(customers: map<Id, Customer>, merchant: string)
    ensures |Restrict(customers, CustomerOf(merchant))|
         == |set k | k in customers && customers[k].merchant == merchant|
    ensures |Restrict(Restrict(customers, CustomerOf(merchant)), Owes)|
         == |set k | k in customers && customers[k].merchant == merchant && customers[k].balance > 0.0|
  {
    var clients := Restrict(customers, CustomerOf(merchant));
    assert clients.Keys == set k | k in customers && customers[k].merchant == merchant;
    assert Restrict(clients, Owes).Keys
        == set k | k in customers && customers[k].merchant == merchant && customers[k].balance > 0.0;
  }

  // ---- The summary reconciles with the ledger -----------------------------------------------------

  function CreditOf(c: Customer): real { c.totalCredit }

  function PaidOf(c: Customer): real { c.totalPaid }

  function CustomerId(t: Txn): Id { t.customer }

  /** The cached totals of one kind of a merchant's customers add up to its transactions. */
  lemma CachesAddUp(s: State, merchant: string, kind: Kind, cached: Customer -> real)
    requires Linked(s)
    requires forall c :: c in s.customers ==> cached(s.customers[c]) == SumOf(Own(s, c), kind)
    ensures Total(Restrict(s.customers, CustomerOf(merchant)), cached)
         == SumOf(Restrict(s.txns, OfMerchant(merchant)), kind)
  {
    hide Total, Restrict, Labelled, LabelledIn;
    var clients := Restrict(s.customers, CustomerOf(merchant));
    var part := Restrict(s.txns, IsKind(kind));
    forall c | c in clients
      ensures cached(clients[c]) == Total(Restrict(part, Labelled(CustomerId, c)), Amount)
    {
      OwnByLabel(s, c, kind);
      ClientExists(s, merchant, c);
    }
    TotalByGroup(part, CustomerId, Amount, clients, cached);
    BookByLabel(s, merchant, kind);
  }

  lemma ClientExists(s: State, merchant: string, c: Id)
    requires c in Restrict(s.customers, CustomerOf(merchant))
    ensures c in s.customers && Restrict(s.customers, CustomerOf(merchant))[c] == s.customers[c]
  {
  }

  lemma OwnByLabel(s: State, c: Id, kind: Kind)
    ensures Restrict(Restrict(s.txns, IsKind(kind)), Labelled(CustomerId, c)) == Restrict(Own(s, c), IsKind(kind))
  {
    var tagged, own := Labelled(CustomerId, c), OwnedBy(c);
    assert forall t :: tagged(t) == own(t);
  }

  lemma BookByLabel(s: State, merchant: string, kind: Kind)
    requires Linked(s)
    ensures var clients := Restrict(s.customers, CustomerOf(merchant));
            Restrict(Restrict(s.txns, IsKind(kind)), LabelledIn(CustomerId, clients.Keys))
            == Restrict(Restrict(s.txns, OfMerchant(merchant)), IsKind(kind))
  {
    var clients := Restrict(s.customers, CustomerOf(merchant));
    var tagged := LabelledIn(CustomerId, clients.Keys);
    forall k | k in s.txns ensures tagged(s.txns[k]) <==> s.txns[k].merchant == merchant {
      var t := s.txns[k];
      assert IsCustomerOf(s, t.customer, t.merchant);
      assert t.customer in clients <==> s.customers[t.customer].merchant == merchant;
    }
  }

  lemma FullRate(payment: real, credit: real)
    ensures credit > 0.0 ==> (Rate(payment, credit) >= 100.0 <==> payment >= credit)
  {
    if credit > 0.0 {
      Quotient(payment, credit, 1.0);
    }
  }

  /** Balances of a merchant's customers add up to its credits minus its payments, so the
      outstanding figure is at least that, and exactly that when nobody is overpaid. */
  lemma DashboardReconciles(s: State, merchant: string)
    requires Linked(s) && Exact(s)
    ensures var clients := Restrict(s.customers, CustomerOf(merchant));
            var book := Restrict(s.txns, OfMerchant(merchant));
            var outstanding := Total(Restrict(clients, Owes), BalanceOf);
            && Total(clients, BalanceOf) == Net(book)
            && outstanding >= Net(book)
            && (outstanding == Net(book) <==> forall c :: c in clients ==> clients[c].balance >= 0.0)
            && (SumOf(book, Credit) > 0.0 ==>
                  var rate := Rate(SumOf(book, Payment), SumOf(book, Credit));
                  (rate >= 100.0 <==> Net(book) <= 0.0) && (outstanding == 0.0 ==> rate >= 100.0))
  {
    hide SumOf, Total, Linked, Rate;
    var clients := Restrict(s.customers, CustomerOf(merchant));
    var book := Restrict(s.txns, OfMerchant(merchant));
    CachesAddUp(s, merchant, Credit, CreditOf);
    CachesAddUp(s, merchant, Payment, PaidOf);
    assert forall c :: c in s.customers ==> ExactFor(s, c);
    TotalDifference(clients, BalanceOf, CreditOf, PaidOf);
    OutstandingCoversNet(clients);
    FullRate(SumOf(book, Payment), SumOf(book, Credit));
  }

  lemma {:induction false} TotalDifference<K, D>(m: map<K, D>, f: D -> real, g: D -> real, h: D -> real)
    requires forall k :: k in m ==> f(m[k]) == g(m[k]) - h(m[k])
    ensures Total(m, f) == Total(m, g) - Total(m, h)
    decreases |m|
  {
    if m != map[] {
      var k :| k in m;
      TotalRemove(m, f, k);
      TotalRemove(m, g, k);
      TotalRemove(m, h, k);
      TotalDifference(m - {k}, f, g, h);
    }
  }

  lemma OutstandingCoversNet(clients: map<Id, Customer>)
    ensures Total(Restrict(clients, Owes), BalanceOf) >= Total(clients, BalanceOf)
    ensures Total(Restrict(clients, Owes), BalanceOf) == Total(clients, BalanceOf)
       <==> forall c :: c in clients ==> clients[c].balance >= 0.0
  {
    hide Total;
    var clear := (c: Customer) => !Owes(c);
    var rest := Restrict(clients, clear);
    TotalSplit(clients, Owes, clear, BalanceOf);
    var overpaid := (c: Customer) => -c.balance;
    var none := (c: Customer) => 0.0;
    TotalDifference(rest, overpaid, none, BalanceOf);
    TotalNonNegative(rest, none);
    TotalNonNegative(rest, overpaid);
    assert forall c :: c in clients && clients[c].balance < 0.0 ==> c in rest && overpaid(rest[c]) > 0.0;
  }
}
