/** Sequential runs of the application: any sequence of complete operations, each at its
    own instants of a clock that never goes back. */
module Ledger {
  import opened Collections
  import opened Records
  import opened Scoring
  import opened Store
  import opened Customers
  import opened Transactions
  import opened BulkImport

  datatype Op =
    | AddCustomer(merchant: string, name: string, phone: string, address: string)
    | Import(merchant: string, columns: seq<string>, rows: seq<Row>)
    | AddTxn(merchant: string, cid: Id, txnType: string, amount: real, note: string)
    | EditTxn(merchant: string, tid: Id, amount: real, note: string)
    | DeleteTxn(merchant: string, tid: Id)
    | DeleteCustomer(merchant: string, cid: Id)
    | Rescore(cid: Id)

  /** An operation that stamps its document at one instant and scores at a later one. */
  datatype Event = Event(op: Op, at: int, scoredAt: int)

  ghost function Next(s: State, e: Event): State {
    match e.op
    case AddCustomer(merchant, name, phone, address) => Added(s, merchant, name, phone, address)
    case Import(merchant, columns, rows) =>
      if forall c :: c in REQUIRED ==> c in columns then Imported(s, merchant, ReadRows(columns, rows)) else s
    case AddTxn(merchant, cid, txnType, amount, note) =>
      TxnAdded(s, merchant, cid, txnType, amount, note, e.at, e.scoredAt)
    case EditTxn(merchant, tid, amount, note) => TxnEdited(s, tid, merchant, amount, note, e.scoredAt)
    case DeleteTxn(merchant, tid) => TxnDeleted(s, tid, merchant, e.scoredAt)
    case DeleteCustomer(merchant, cid) => Cascaded(s, cid, merchant)
    case Rescore(cid) => Rescored(s, cid, e.scoredAt)
  }

  /** An event is the operation itself, called on the collections. */
  method Perform(db: Database, e: Event)
    requires FreshIds(db.Snapshot())
    modifies db
    ensures db.Snapshot() == Next(old(db.Snapshot()), e)
  {
    hide Imported, TxnAdded, TxnEdited, TxnDeleted, Cascaded, Added, Rescored, FreshIds, Score;
    match e.op {
      case AddCustomer(merchant, name, phone, address) =>
        var _ := Customers.AddCustomer(db, merchant, name, phone, address);
      case Import(merchant, columns, rows) =>
        var _ := ImportCustomers(db, merchant, columns, rows);
      case AddTxn(merchant, cid, txnType, amount, note) =>
        var _ := AddTransaction(db, merchant, cid, txnType, amount, note, e.at, e.scoredAt);
      case EditTxn(merchant, tid, amount, note) =>
        var _ := EditTransaction(db, tid, merchant, amount, note, e.scoredAt);
      case DeleteTxn(merchant, tid) =>
        var _ := DeleteTransaction(db, tid, merchant, e.scoredAt);
      case DeleteCustomer(merchant, cid) =>
        var _ := Customers.DeleteCustomer(db, cid, merchant);
      case Rescore(cid) =>
        var _, _ := ComputeCreditScore(db, cid, e.scoredAt);
    }
  }

  ghost function Run(s: State, events: seq<Event>): State {
    if events == [] then s else Next(Run(s, events[..|events| - 1]), events[|events| - 1])
  }

  function Clock(start: int, events: seq<Event>): int {
    if events == [] then start else events[|events| - 1].scoredAt
  }

  predicate Timed(start: int, events: seq<Event>) {
    events == [] || (
      var n := |events| - 1;
      Timed(start, events[..n]) && Clock(start, events[..n]) <= events[n].at <= events[n].scoredAt)
  }

  // ---- Invariants ---------------------------------------------------------------------------

  /** Every transaction belongs to a customer that exists, and to that customer's merchant. */
  ghost predicate Linked(s: State) {
    forall t :: t in s.txns ==> IsCustomerOf(s, s.txns[t].customer, s.txns[t].merchant)
  }

  ghost predicate ExactFor(s: State, c: Id)
    requires c in s.customers
  {
    && s.customers[c].totalCredit == SumOf(Own(s, c), Credit)
    && s.customers[c].totalPaid == SumOf(Own(s, c), Payment)
    && s.customers[c].balance == Net(Own(s, c))
  }

  /** The cached totals agree with the transaction collection. */
  ghost predicate Exact(s: State) {
    forall c :: c in s.customers ==> ExactFor(s, c)
  }

  ghost predicate UniquePhones(s: State) {
    forall c, d :: c in s.customers && d in s.customers && c != d ==>
      s.customers[c].merchant != s.customers[d].merchant || s.customers[c].phone != s.customers[d].phone
  }

  /** What is stored is what scoring at time t would store, up to the category every
      customer starts with. */
  ghost predicate StoredAt(s: State, c: Id, t: int)
    requires c in s.customers
  {
    && s.customers[c].score == Score(Own(s, c), s.customers[c].balance, t)
    && (s.customers[c].category == CategoryOf(s.customers[c].score)
        || (Own(s, c) == map[] && s.customers[c].category == LowRisk))
  }

  ghost predicate ScoredBy(s: State, c: Id, clock: int)
    requires c in s.customers
  {
    exists t :: t <= clock && StoredAt(s, c, t)
  }

  ghost predicate Scored(s: State, clock: int) {
    forall c :: c in s.customers ==> ScoredBy(s, c, clock)
  }

  ghost predicate Inv(s: State, clock: int) {
    FreshIds(s) && Linked(s) && Exact(s) && UniquePhones(s) && Scored(s, clock)
  }

  // ---- One write at a time ---------------------------------------------------------------------

  /** m may differ from s in customer cid's documents only, and not in who the customers are. */
  ghost predicate OnlyTouches(s: State, m: State, cid: Id) {
    && m.customers.Keys == s.customers.Keys
    && (forall c :: c in s.customers && c != cid ==> m.customers[c] == s.customers[c] && Own(m, c) == Own(s, c))
    && (forall c :: c in s.customers ==>
          m.customers[c].merchant == s.customers[c].merchant && m.customers[c].phone == s.customers[c].phone)
  }

  /** A ledger step posted its amount: everything but the score of cid is in order again. */
  ghost predicate PostedFor(s: State, m: State, cid: Id) {
    FreshIds(m) && Linked(m) && Exact(m) && OnlyTouches(s, m, cid)
  }

  lemma RecordedPosts(s: State, merchant: string, cid: Id, kind: Kind, amount: real, note: string, at: int)
    requires FreshIds(s) && Linked(s) && Exact(s) && IsCustomerOf(s, cid, merchant)
    ensures PostedFor(s, Recorded(s, merchant, cid, kind, amount, note, at), cid)
  {
    hide SumOf, Own;
    var t := NewTxn(s, merchant, cid, kind, amount, note, at);
    var m := Recorded(s, merchant, cid, kind, amount, note, at);
    forall c ensures Own(m, c) == Own(WithTxn(s, t), c) { OwnReads(m, WithTxn(s, t), c); }
    forall c, k { SumAfterInsert(s, t, c, k); }
    forall c { OwnAfterInsert(s, t, c); }
    assert Exact(m);
  }

  lemma OwnReads(s: State, m: State, c: Id)
    requires s.txns == m.txns
    ensures Own(s, c) == Own(m, c)
  {
  }

  lemma CorrectedPosts(s: State, tid: Id, amount: real, note: string)
    requires FreshIds(s) && Linked(s) && Exact(s) && tid in s.txns
    ensures PostedFor(s, Corrected(s, tid, amount, note), s.txns[tid].customer)
  {
    hide SumOf, Own;
    var w := WithAmount(s, tid, amount, note);
    var m := Corrected(s, tid, amount, note);
    forall c ensures Own(m, c) == Own(w, c) { OwnReads(m, w, c); }
    forall c, k { SumAfterAmount(s, tid, amount, note, c, k); }
    forall c | c != s.txns[tid].customer ensures Own(m, c) == Own(s, c) {
      OwnAfterAmount(s, tid, amount, note, c);
      NotOwned(s, tid, c);
    }
    assert Exact(m);
  }

  lemma ReversedPosts(s: State, tid: Id)
    requires FreshIds(s) && Linked(s) && Exact(s) && tid in s.txns
    ensures PostedFor(s, Reversed(s, tid), s.txns[tid].customer)
  {
    hide SumOf, Own;
    var w := WithoutTxn(s, tid);
    var m := Reversed(s, tid);
    forall c ensures Own(m, c) == Own(w, c) { OwnReads(m, w, c); }
    forall c, k { SumAfterRemoval(s, tid, c, k); }
    forall c | c != s.txns[tid].customer ensures Own(m, c) == Own(s, c) {
      OwnAfterRemoval(s, tid, c);
      NotOwned(s, tid, c);
      assert Own(s, c) - {tid} == Own(s, c);
    }
    assert Exact(m);
  }

  lemma NotOwned(s: State, tid: Id, c: Id)
    requires tid in s.txns && s.txns[tid].customer != c
    ensures tid !in Own(s, c)
  {
  }

  lemma RescoreKeepsBooks(s: State, m: State, cid: Id, t: int)
    requires PostedFor(s, m, cid)
    ensures PostedFor(s, Rescored(m, cid, t), cid)
  {
    hide SumOf, Own, Score;
    var n := Rescored(m, cid, t);
    forall c ensures Own(n, c) == Own(m, c) { OwnReads(n, m, c); }
  }

  lemma SamePeople(s: State, m: State, cid: Id)
    requires UniquePhones(s) && OnlyTouches(s, m, cid)
    ensures UniquePhones(m)
  {
  }

  lemma RescoreKeepsScores(s: State, m: State, cid: Id, clock: int, t: int)
    requires Scored(s, clock) && clock <= t
    requires OnlyTouches(s, m, cid)
    ensures Scored(Rescored(m, cid, t), t)
  {
    hide Own, Score;
    var n := Rescored(m, cid, t);
    forall c ensures Own(n, c) == Own(m, c) { OwnReads(n, m, c); }
    forall c | c in n.customers ensures ScoredBy(n, c, t) {
      if c == cid {
        assert StoredAt(n, c, t);
      } else {
        var u :| u <= clock && StoredAt(s, c, u);
        assert StoredAt(n, c, u);
      }
    }
  }

  /** Rescoring cid at time t completes the operation. */
  lemma RescoreCompletes(s: State, m: State, cid: Id, clock: int, t: int)
    requires Inv(s, clock) && clock <= t
    requires PostedFor(s, m, cid)
    ensures Inv(Rescored(m, cid, t), t)
    ensures OnlyTouches(s, Rescored(m, cid, t), cid)
  {
    hide Rescored, OnlyTouches, Scored, UniquePhones, Exact, Linked;
    RescoreKeepsBooks(s, m, cid, t);
    SamePeople(s, Rescored(m, cid, t), cid);
    RescoreKeepsScores(s, m, cid, clock, t);
  }

  lemma Unchanged(s: State, clock: int, later: int)
    requires Inv(s, clock) && clock <= later
    ensures Inv(s, later)
  {
  }

  // ---- Every operation keeps the invariant -------------------------------------------------------

  lemma AddedKeepsInv(s: State, clock: int, merchant: string, name: string, phone: string, address: string)
    requires Inv(s, clock)
    ensures Inv(Added(s, merchant, name, phone, address), clock)
  {
    hide SumOf, Score;
    if !PhoneTaken(s, merchant, phone) {
      var m := Added(s, merchant, name, phone, address);
      var id := s.nextCustomer;
      forall c ensures Own(m, c) == Own(s, c) {}
      assert Own(s, id) == map[];
      NothingRecorded(clock);
      forall c | c in m.customers ensures ScoredBy(m, c, clock) {
        if c == id {
          assert StoredAt(m, c, clock);
        } else {
          var u :| u <= clock && StoredAt(s, c, u);
          assert StoredAt(m, c, u);
        }
      }
    }
  }

  lemma NothingRecorded(now: int)
    ensures SumOf(map[], Credit) == 0.0 == SumOf(map[], Payment)
    ensures Score(map[], 0.0, now) == 100
  {
  }

  lemma {:induction false} ImportedKeepsInv(s: State, clock: int, merchant: string, rows: seq<Row>)
    requires Inv(s, clock)
    ensures Inv(Imported(s, merchant, rows), clock)
  {
    hide Inv, Added;
    if rows != [] {
      var n := |rows| - 1;
      ImportedKeepsInv(s, clock, merchant, rows[..n]);
      AddedKeepsInv(Imported(s, merchant, rows[..n]), clock, merchant, rows[n].name, rows[n].phone, rows[n].address);
    }
  }

  lemma CascadedOwn(s: State, cid: Id, c: Id)
    requires c != cid
    ensures Own(WithoutHistory(WithoutCustomer(s, cid), cid), c) == Own(s, c)
  {
  }

  lemma CascadedKeepsLinks(s: State, cid: Id, merchant: string)
    requires FreshIds(s) && Linked(s)
    ensures FreshIds(Cascaded(s, cid, merchant)) && Linked(Cascaded(s, cid, merchant))
  {
  }

  lemma CascadedKeepsInv(s: State, clock: int, cid: Id, merchant: string)
    requires Inv(s, clock)
    ensures Inv(Cascaded(s, cid, merchant), clock)
  {
    hide SumOf, Score, Own, Linked, FreshIds;
    CascadedKeepsLinks(s, cid, merchant);
    if IsCustomerOf(s, cid, merchant) {
      var m := Cascaded(s, cid, merchant);
      forall c | c != cid ensures Own(m, c) == Own(s, c) { CascadedOwn(s, cid, c); }
      forall c | c in m.customers ensures ScoredBy(m, c, clock) {
        var u :| u <= clock && StoredAt(s, c, u);
        assert StoredAt(m, c, u);
      }
    }
  }

  lemma NextKeepsInv(s: State, clock: int, e: Event)
    requires Inv(s, clock) && clock <= e.at <= e.scoredAt
    ensures Inv(Next(s, e), e.scoredAt)
  {
    hide Inv, PostedFor, OnlyTouches, Rescored, Cascaded, Added, Imported, Recorded, Corrected, Reversed;
    Unchanged(s, clock, e.scoredAt);
    match e.op
    case AddCustomer(merchant, name, phone, address) =>
      AddedKeepsInv(s, e.scoredAt, merchant, name, phone, address);
    case Import(merchant, columns, rows) =>
      ImportedKeepsInv(s, e.scoredAt, merchant, ReadRows(columns, rows));
    case AddTxn(merchant, cid, txnType, amount, note) =>
      if IsCustomerOf(s, cid, merchant) {
        InvParts(s, clock);
        RecordedPosts(s, merchant, cid, KindOf(txnType), amount, note, e.at);
        RescoreCompletes(s, Recorded(s, merchant, cid, KindOf(txnType), amount, note, e.at), cid, clock, e.scoredAt);
      }
    case EditTxn(merchant, tid, amount, note) =>
      if tid in s.txns {
        InvParts(s, clock);
        CorrectedPosts(s, tid, amount, note);
        RescoreCompletes(s, Corrected(s, tid, amount, note), s.txns[tid].customer, clock, e.scoredAt);
      }
    case DeleteTxn(merchant, tid) =>
      if tid in s.txns {
        InvParts(s, clock);
        ReversedPosts(s, tid);
        RescoreCompletes(s, Reversed(s, tid), s.txns[tid].customer, clock, e.scoredAt);
      }
    case DeleteCustomer(merchant, cid) =>
      CascadedKeepsInv(s, e.scoredAt, cid, merchant);
    case Rescore(cid) =>
      InvParts(s, clock);
      UntouchedPosts(s, cid);
      RescoreCompletes(s, s, cid, clock, e.scoredAt);
  }

  lemma InvParts(s: State, clock: int)
    requires Inv(s, clock)
    ensures FreshIds(s) && Linked(s) && Exact(s)
  {
  }

  lemma UntouchedPosts(s: State, cid: Id)
    requires FreshIds(s) && Linked(s) && Exact(s)
    ensures PostedFor(s, s, cid)
  {
  }

  /** Every state a run can reach satisfies the invariant. */
  lemma {:induction false} RunKeepsInv(start: int, events: seq<Event>)
    requires Timed(start, events)
    ensures Inv(Run(EMPTY, events), Clock(start, events))
  {
    hide Next;
    if events != [] {
      var n := |events| - 1;
      RunKeepsInv(start, events[..n]);
      NextKeepsInv(Run(EMPTY, events[..n]), Clock(start, events[..n]), events[n]);
    }
  }
}
