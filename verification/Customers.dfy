/** Customers: creation, scoring, the defaulter list and the deletion cascade. */
module Customers {
  import opened Collections
  import opened Records
  import opened Scoring
  import opened Store

  datatype Refusal = AmountNotPositive | InvalidType | CustomerNotFound | TransactionNotFound | PhoneExists

  datatype Reply = Done | Created(id: Id) | NewBalance(balance: real) | Refused(reason: Refusal)

  // ---- What the operations do to a snapshot -----------------------------------------

  predicate PhoneTaken(s: State, merchant: string, phone: string) {
    exists k :: k in s.customers && s.customers[k].merchant == merchant && s.customers[k].phone == phone
  }

  function NewCustomer(merchant: string, name: string, phone: string, address: string): Customer {
    Customer(merchant, name, phone, address, 0.0, 0.0, 0.0, 100, LowRisk)
  }

  function Added(s: State, merchant: string, name: string, phone: string, address: string): State {
    if PhoneTaken(s, merchant, phone) then s else WithCustomer(s, NewCustomer(merchant, name, phone, address))
  }

  /** What scoring a customer yields; an unknown customer passes as a good one. */
  ghost function Verdict(s: State, cid: Id, now: int): (int, Category) {
    if cid in s.customers then
      var score := Score(Own(s, cid), s.customers[cid].balance, now);
      (score, CategoryOf(score))
    else (100, LowRisk)
  }

  ghost function Rescored(s: State, cid: Id, now: int): State {
    WithScore(s, cid, Verdict(s, cid, now).0, Verdict(s, cid, now).1)
  }

  function Cascaded(s: State, cid: Id, merchant: string): State {
    if IsCustomerOf(s, cid, merchant) then WithoutHistory(WithoutCustomer(s, cid), cid) else s
  }

  // ---- What a cursor over a history reveals about its profile ---------------------------

  ghost predicate ByDate(docs: seq<Txn>) {
    forall i, j :: 0 <= i < j < |docs| ==> docs[i].date <= docs[j].date
  }

  lemma {:induction false} FilterByDate(docs: seq<Txn>, p: Txn -> bool)
    requires ByDate(docs)
    ensures ByDate(Filter(docs, p))
    ensures forall t :: t in Filter(docs, p) ==> t in docs
  {
    if docs != [] {
      var init, last := docs[..|docs| - 1], docs[|docs| - 1];
      FilterByDate(init, p);
      assert forall t :: t in init ==> t.date <= last.date;
    }
  }

  /** The last document of a listing by date carries the newest date. */
  lemma LastIsNewest(docs: seq<Txn>, h: History)
    requires Lists(docs, h) && ByDate(docs) && h != map[]
    ensures docs != [] && docs[|docs| - 1].date == Newest(h)
  {
    hide Lists;
    ListedSize(docs, h);
    var k :| k in h && h[k].date == Newest(h);
    var i := ListedIndex(docs, h, k);
    ListedDocument(docs, h, |docs| - 1);
  }

  lemma ListedKind(docs: seq<Txn>, h: History, kind: Kind)
    requires Lists(docs, h)
    ensures Lists(Filter(docs, IsKind(kind)), Restrict(h, IsKind(kind)))
    ensures Sum(Filter(docs, IsKind(kind)), Amount) == SumOf(h, kind)
    ensures |Filter(docs, IsKind(kind))| == NumOf(h, kind)
  {
    hide Lists;
    ListedFilter(docs, h, IsKind(kind));
    ListedSum(Filter(docs, IsKind(kind)), Restrict(h, IsKind(kind)), Amount);
    ListedSize(Filter(docs, IsKind(kind)), Restrict(h, IsKind(kind)));
  }

  lemma ListedIdle(docs: seq<Txn>, h: History, now: int)
    requires Lists(docs, h) && ByDate(docs)
    ensures var payments := Filter(docs, IsKind(Payment));
            IdleAt(h, now) == if payments == [] then Never else Idle(Days(now - payments[|payments| - 1].date))
  {
    hide Lists;
    var payments := Filter(docs, IsKind(Payment));
    ListedKind(docs, h, Payment);
    FilterByDate(docs, IsKind(Payment));
    if payments != [] {
      LastIsNewest(payments, Restrict(h, IsKind(Payment)));
    }
  }

  lemma ListedProfile(docs: seq<Txn>, h: History, now: int) returns (p: Profile)
    requires Lists(docs, h) && ByDate(docs)
    ensures p == ProfileOf(h, now)
    ensures p.credit == Sum(Filter(docs, IsKind(Credit)), Amount)
    ensures p.paid == Sum(Filter(docs, IsKind(Payment)), Amount)
    ensures p.credits == |Filter(docs, IsKind(Credit))|
    ensures p.payments == |Filter(docs, IsKind(Payment))|
    ensures p.overdue == |Filter(Filter(docs, IsKind(Credit)), OverdueAt(now))|
    ensures var payments := Filter(docs, IsKind(Payment));
            p.idle == if payments == [] then Never else Idle(Days(now - payments[|payments| - 1].date))
  {
    hide Lists, SumOf, NumOf, IdleAt;
    p := ProfileOf(h, now);
    ListedKind(docs, h, Credit);
    ListedKind(docs, h, Payment);
    ListedIdle(docs, h, now);
    var credits := Filter(docs, IsKind(Credit));
    ListedFilter(credits, Restrict(h, IsKind(Credit)), OverdueAt(now));
    ListedSize(Filter(credits, OverdueAt(now)), Restrict(Restrict(h, IsKind(Credit)), OverdueAt(now)));
  }

  lemma ScoreDefinition(h: History, balance: real, now: int)
    ensures Score(h, balance, now) == if |h| == 0 then 100 else Points(ProfileOf(h, now), balance)
  {
  }

  lemma PointsDefinition(p: Profile, balance: real, score: int)
    requires score == RatioPoints(p.paid, p.credit) + OverduePoints(p.overdue) + BalancePoints(balance)
                      + FrequencyPoints(p.payments) + RecencyPoints(p.idle) + ConsistencyPoints(p.payments, p.credits)
    ensures score == Points(p, balance) && 0 <= score <= 100
  {
  }

  // ---- The quotient thresholds in cross-multiplied form ------------------------------------

  lemma Quotient(a: real, b: real, bound: real)
    requires b > 0.0
    ensures a / b >= bound <==> a >= bound * b
  {
  }

  lemma QuotientSteps(paid: real, credit: real)
    requires credit > 0.0
    ensures RatioPoints(paid, credit)
         == var ratio := paid / credit;
            if ratio >= 1.0 then 30 else if ratio >= 0.85 then 26 else if ratio >= 0.70 then 22
            else if ratio >= 0.55 then 17 else if ratio >= 0.40 then 12 else if ratio >= 0.25 then 7
            else if ratio >= 0.10 then 3 else 0
  {
    Quotient(paid, credit, 1.0);
    Quotient(paid, credit, 0.85);
    Quotient(paid, credit, 0.70);
    Quotient(paid, credit, 0.55);
    Quotient(paid, credit, 0.40);
    Quotient(paid, credit, 0.25);
    Quotient(paid, credit, 0.10);
  }

  lemma QuotientOfCounts(payments: nat, credits: nat)
    requires payments > 0 && credits > 0
    ensures ConsistencyPoints(payments, credits)
         == var ratio := (payments as real) / (credits as real);
            if ratio >= 1.0 then 5 else if ratio >= 0.75 then 3 else if ratio >= 0.50 then 1 else 0
  {
    Quotient(payments as real, credits as real, 1.0);
    Quotient(payments as real, credits as real, 0.75);
    Quotient(payments as real, credits as real, 0.50);
  }

  // ---- The operations ------------------------------------------------------------------

  method AddCustomer(db: Database, merchant: string, name: string, phone: string, address: string)
      returns (reply: Reply)
    modifies db
    ensures db.Snapshot() == Added(old(db.Snapshot()), merchant, name, phone, address)
    ensures reply == Refused(PhoneExists) <==> PhoneTaken(old(db.Snapshot()), merchant, phone)
    ensures reply == Refused(PhoneExists) <==>
              exists k :: k in old(db.customers) && old(db.customers)[k].merchant == merchant
                          && old(db.customers)[k].phone == phone
    ensures reply == Refused(PhoneExists) ==> db.Snapshot() == old(db.Snapshot())
    ensures reply != Refused(PhoneExists) ==>
              && reply == Created(old(db.nextCustomer)) && db.txns == old(db.txns)
              && db.customers == old(db.customers)[old(db.nextCustomer) :=
                   Customer(merchant, name, phone, address, 0.0, 0.0, 0.0, 100, LowRisk)]
  {
    if exists k :: k in db.customers && db.customers[k].merchant == merchant && db.customers[k].phone == phone {
      return Refused(PhoneExists);
    }
    var id := db.InsertCustomer(Customer(merchant, name, phone, address, 0.0, 0.0, 0.0, 100, LowRisk));
    reply := Created(id);
  }

  method DeleteCustomer(db: Database, cid: Id, merchant: string) returns (reply: Reply)
    modifies db
    ensures db.Snapshot() == Cascaded(old(db.Snapshot()), cid, merchant)
    ensures reply == if cid in old(db.customers) && old(db.customers)[cid].merchant == merchant then Done
                     else Refused(CustomerNotFound)
    ensures reply.Refused? ==> db.Snapshot() == old(db.Snapshot())
    ensures reply.Done? ==>
              && db.customers == old(db.customers) - {cid}
              && db.txns == map k | k in old(db.txns) && old(db.txns)[k].customer != cid :: old(db.txns)[k]
  {
    var deleted := db.DeleteCustomer(cid, merchant);
    if deleted {
      db.DeleteHistory(cid);
      reply := Done;
    } else {
      reply := Refused(CustomerNotFound);
    }
  }

  method GetDefaulters(db: Database, merchant: string) returns (docs: seq<Customer>)
    ensures Lists(docs, Restrict(Restrict(db.customers, CustomerOf(merchant)), Owes))
    ensures forall c :: c in docs ==> c in db.customers.Values && c.merchant == merchant && c.balance > 0.0
    ensures forall k :: k in db.customers && db.customers[k].merchant == merchant && db.customers[k].balance > 0.0 ==>
              db.customers[k] in docs
  {
    docs := Find(Restrict(Restrict(db.customers, CustomerOf(merchant)), Owes));
    OwingListed(docs, db.Snapshot(), merchant);
  }

  /** Who owes money is listed, and nobody else. */
  lemma OwingListed(docs: seq<Customer>, s: State, merchant: string)
    requires Lists(docs, Restrict(Restrict(s.customers, CustomerOf(merchant)), Owes))
    ensures forall c :: c in docs ==> c in s.customers.Values && c.merchant == merchant && c.balance > 0.0
    ensures forall k :: k in s.customers && s.customers[k].merchant == merchant && s.customers[k].balance > 0.0 ==>
              s.customers[k] in docs
  {
    hide Lists;
    var owing := Restrict(Restrict(s.customers, CustomerOf(merchant)), Owes);
    forall c | c in docs ensures c in s.customers.Values && c.merchant == merchant && c.balance > 0.0 {
      var i :| 0 <= i < |docs| && docs[i] == c;
      ListedDocument(docs, owing, i);
    }
    forall k | k in s.customers && s.customers[k].merchant == merchant && s.customers[k].balance > 0.0
      ensures s.customers[k] in docs
    {
      var i := ListedIndex(docs, owing, k);
    }
  }

  method ComputeCreditScore(db: Database, cid: Id, now: int) returns (score: int, category: Category)
    modifies db
    ensures db.Snapshot() == Rescored(old(db.Snapshot()), cid, now)
    ensures (score, category) == Verdict(old(db.Snapshot()), cid, now)
    ensures cid !in old(db.customers) ==> score == 100 && category == LowRisk && db.Snapshot() == old(db.Snapshot())
    ensures cid in old(db.customers) ==>
              && db.txns == old(db.txns)
              && db.customers == old(db.customers)[cid := old(db.customers)[cid].(score := score, category := category)]
  {
    if cid !in db.customers {
      return 100, LowRisk;
    }
    var docs := FindSorted(Restrict(db.txns, OwnedBy(cid)), (t: Txn) => t.date);
    score, category := ScoreListing(docs, db.customers[cid].balance, now, Own(db.Snapshot(), cid));
    db.SetScore(cid, score, category);
  }

  /** The scoring of one customer whose transactions the cursor returned as docs, by
      ascending date. Only the set h behind the cursor matters, not the order of ties. */
  method ScoreListing(docs: seq<Txn>, balance: real, now: int, ghost h: History)
      returns (score: int, category: Category)
    requires Lists(docs, h)
    requires ByDate(docs)
    ensures score == Score(h, balance, now)
    ensures category == CategoryOf(score)
  {
    hide Score, Points, ProfileOf, Lists, Filter, Sum;
    ScoreDefinition(h, balance, now);
    ListedSize(docs, h);
    if docs == [] {
      return 100, Excellent;
    }
    var credits := Filter(docs, IsKind(Credit));
    var payments := Filter(docs, IsKind(Payment));
    ghost var p := ListedProfile(docs, h, now);

    var totalCredit := Sum(credits, Amount);
    var totalPaid := Sum(payments, Amount);

    score := 0;
    if totalCredit > 0.0 {
      QuotientSteps(totalPaid, totalCredit);
      var ratio := totalPaid / totalCredit;
      if ratio >= 1.0 { score := score + 30; }
      else if ratio >= 0.85 { score := score + 26; }
      else if ratio >= 0.70 { score := score + 22; }
      else if ratio >= 0.55 { score := score + 17; }
      else if ratio >= 0.40 { score := score + 12; }
      else if ratio >= 0.25 { score := score + 7; }
      else if ratio >= 0.10 { score := score + 3; }
    } else {
      score := score + 30;
    }
    assert score == RatioPoints(p.paid, p.credit);
    ghost var sum := score;

    var overdue := |Filter(credits, OverdueAt(now))|;
    if overdue == 0 { score := score + 20; }
    else if overdue == 1 { score := score + 14; }
    else if overdue == 2 { score := score + 8; }
    else if overdue == 3 { score := score + 3; }
    assert score == sum + OverduePoints(p.overdue);
    sum := score;

    if balance <= 0.0 { score := score + 20; }
    else if balance <= 500.0 { score := score + 18; }
    else if balance <= 1000.0 { score := score + 16; }
    else if balance <= 3000.0 { score := score + 13; }
    else if balance <= 5000.0 { score := score + 10; }
    else if balance <= 10000.0 { score := score + 7; }
    else if balance <= 25000.0 { score := score + 4; }
    else if balance <= 100000.0 { score := score + 2; }
    assert score == sum + BalancePoints(balance);
    sum := score;

    var numPayments := |payments|;
    if numPayments >= 10 { score := score + 15; }
    else if numPayments >= 7 { score := score + 12; }
    else if numPayments >= 5 { score := score + 9; }
    else if numPayments >= 3 { score := score + 6; }
    else if numPayments >= 1 { score := score + 3; }
    assert score == sum + FrequencyPoints(p.payments);
    sum := score;

    if payments != [] {
      var daysSince := Days(now - payments[|payments| - 1].date);
      if daysSince <= 7 { score := score + 10; }
      else if daysSince <= 15 { score := score + 8; }
      else if daysSince <= 30 { score := score + 6; }
      else if daysSince <= 60 { score := score + 4; }
      else if daysSince <= 90 { score := score + 2; }
    }
    assert score == sum + RecencyPoints(p.idle);
    sum := score;

    if credits != [] && payments != [] {
      QuotientOfCounts(numPayments, |credits|);
      var ratioTxn := (numPayments as real) / (|credits| as real);
      if ratioTxn >= 1.0 { score := score + 5; }
      else if ratioTxn >= 0.75 { score := score + 3; }
      else if ratioTxn >= 0.50 { score := score + 1; }
    }
    assert score == sum + ConsistencyPoints(p.payments, p.credits);

    PointsDefinition(p, balance, score);
    score := if score > 100 then 100 else score;
    score := if score < 0 then 0 else score;

    if score >= 80 { category := Excellent; }
    else if score >= 65 { category := LowRisk; }
    else if score >= 50 { category := MediumRisk; }
    else if score >= 30 { category := HighRisk; }
    else { category := Defaulter; }
  }
}
