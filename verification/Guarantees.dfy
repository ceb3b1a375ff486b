/** What holds in every state a sequential run can reach, and what single operations
    promise about each other. */
module Guarantees {
  import opened Collections
  import opened Records
  import opened Scoring
  import opened Store
  import opened Customers
  import opened Transactions
  import opened Ledger
  import opened Analytics
  import opened MonthlyTrend

  // ---- The cached totals ------------------------------------------------------------------

  /** After any run the cached totals are the sums over the surviving transactions. */
  lemma CachesAgreeWithLog(start: int, events: seq<Event>, c: Id)
    requires Timed(start, events)
    ensures var s := Run(EMPTY, events);
            c in s.customers ==>
              && s.customers[c].totalCredit == SumOf(Own(s, c), Credit)
              && s.customers[c].totalPaid == SumOf(Own(s, c), Payment)
              && s.customers[c].balance == s.customers[c].totalCredit - s.customers[c].totalPaid
  {
    hide SumOf, Own, Run, Scored, Timed;
    RunKeepsInv(start, events);
    var s := Run(EMPTY, events);
    assert c in s.customers ==> ExactFor(s, c);
  }

  /** Two histories of operations that leave the same transactions leave the same totals. */
  lemma TotalsForgetHistory(start: int, events: seq<Event>, start': int, events': seq<Event>, c: Id)
    requires Timed(start, events) && Timed(start', events')
    requires Run(EMPTY, events).txns == Run(EMPTY, events').txns
    requires c in Run(EMPTY, events).customers && c in Run(EMPTY, events').customers
    ensures var a, b := Run(EMPTY, events).customers[c], Run(EMPTY, events').customers[c];
            a.totalCredit == b.totalCredit && a.totalPaid == b.totalPaid && a.balance == b.balance
  {
    hide SumOf, Own, Run, Timed;
    CachesAgreeWithLog(start, events, c);
    CachesAgreeWithLog(start', events', c);
    OwnReads(Run(EMPTY, events), Run(EMPTY, events'), c);
  }

  // ---- What one operation touches ----------------------------------------------------------

  /** The customer a ledger operation touches. */
  function Target(s: State, op: Op): Id
    requires op.AddTxn? || op.EditTxn? || op.DeleteTxn? || op.Rescore?
  {
    match op
    case AddTxn(merchant, cid, txnType, amount, note) => cid
    case EditTxn(merchant, tid, amount, note) => if tid in s.txns then s.txns[tid].customer else 0
    case DeleteTxn(merchant, tid) => if tid in s.txns then s.txns[tid].customer else 0
    case Rescore(cid) => cid
  }

  lemma NextTouches(s: State, clock: int, e: Event)
    requires Inv(s, clock) && clock <= e.at <= e.scoredAt && Next(s, e) != s
    requires e.op.AddTxn? || e.op.EditTxn? || e.op.DeleteTxn? || e.op.Rescore?
    ensures OnlyTouches(s, Next(s, e), Target(s, e.op))
  {
    hide Inv, PostedFor, OnlyTouches, Rescored, Recorded, Corrected, Reversed;
    InvParts(s, clock);
    match e.op
    case AddTxn(merchant, cid, txnType, amount, note) =>
      RecordedPosts(s, merchant, cid, KindOf(txnType), amount, note, e.at);
      RescoreCompletes(s, Recorded(s, merchant, cid, KindOf(txnType), amount, note, e.at), cid, clock, e.scoredAt);
    case EditTxn(merchant, tid, amount, note) =>
      CorrectedPosts(s, tid, amount, note);
      RescoreCompletes(s, Corrected(s, tid, amount, note), s.txns[tid].customer, clock, e.scoredAt);
    case DeleteTxn(merchant, tid) =>
      ReversedPosts(s, tid);
      RescoreCompletes(s, Reversed(s, tid), s.txns[tid].customer, clock, e.scoredAt);
    case Rescore(cid) =>
      UntouchedPosts(s, cid);
      RescoreCompletes(s, s, cid, clock, e.scoredAt);
  }

  // ---- The stored score -------------------------------------------------------------------

  /** A stored score is never below the score recomputed now or later, nor more than the
      30 time-dependent points above it. */
  lemma StoredScoreAges(start: int, events: seq<Event>, c: Id, later: int)
    requires Timed(start, events) && Clock(start, events) <= later
    ensures var s := Run(EMPTY, events);
            c in s.customers ==>
              var current := Score(Own(s, c), s.customers[c].balance, later);
              current <= s.customers[c].score <= current + 30
  {
    hide Score, SumOf, Own, Run, Timed, Linked, Exact, UniquePhones;
    RunKeepsInv(start, events);
    var s := Run(EMPTY, events);
    if c in s.customers {
      var t :| t <= Clock(start, events) && StoredAt(s, c, t);
      IdleDecay(Own(s, c), s.customers[c].balance, t, later);
    }
  }

  /** The customer an operation rescores, if it gets that far. */
  predicate Rescores(s: State, op: Op, c: Id) {
    match op
    case AddTxn(merchant, cid, txnType, amount, note) =>
      cid == c && AddRefusal(s, merchant, cid, txnType, amount).Done?
    case EditTxn(merchant, tid, amount, note) => IsTxnOf(s, tid, merchant) && s.txns[tid].customer == c
    case DeleteTxn(merchant, tid) => IsTxnOf(s, tid, merchant) && s.txns[tid].customer == c
    case Rescore(cid) => cid == c && c in s.customers
    case _ => false
  }

  /** Right after an operation on its transactions, or a recalculation, a customer's stored
      score and category are exact. */
  lemma StoredScoreIsFresh(s: State, e: Event, c: Id)
    requires Rescores(s, e.op, c)
    ensures var s' := Next(s, e);
            c in s'.customers ==>
              && s'.customers[c].score == Score(Own(s', c), s'.customers[c].balance, e.scoredAt)
              && s'.customers[c].category == CategoryOf(s'.customers[c].score)
  {
    hide Score;
  }

  /** The instant of a customer's last rescoring, read off the operations alone. */
  datatype LastScoring = NeverScored | At(instant: int)

  ghost function LastScored(events: seq<Event>, c: Id): LastScoring {
    if events == [] then NeverScored
    else
      var n := |events| - 1;
      if Rescores(Run(EMPTY, events[..n]), events[n].op, c) then At(events[n].scoredAt)
      else LastScored(events[..n], c)
  }

  /** What is stored for c is the verdict of that instant on what is stored now, or what
      every customer starts with. */
  ghost predicate ScoredSince(s: State, c: Id, last: LastScoring)
    requires c in s.customers
  {
    match last
    case NeverScored => s.customers[c].score == 100 && s.customers[c].category == LowRisk && Own(s, c) == map[]
    case At(t) => (s.customers[c].score, s.customers[c].category) == Verdict(s, c, t)
  }

  lemma RescoredCustomerExists(s: State, op: Op, c: Id)
    requires FreshIds(s) && Linked(s) && Rescores(s, op, c)
    ensures c in s.customers && c < s.nextCustomer
  {
  }

  lemma AddedAppends(s: State, merchant: string, name: string, phone: string, address: string, c: Id)
    requires FreshIds(s) && (forall t :: t in s.txns ==> s.txns[t].customer < s.nextCustomer)
    ensures var m := Added(s, merchant, name, phone, address);
            && FreshIds(m) && m.txns == s.txns && s.nextCustomer <= m.nextCustomer
            && (c in s.customers ==> c in m.customers && m.customers[c] == s.customers[c])
            && (c in m.customers && c !in s.customers ==> c >= s.nextCustomer && ScoredSince(m, c, NeverScored))
  {
    hide Score;
  }

  lemma {:induction false} ImportAppends(s: State, merchant: string, rows: seq<BulkImport.Row>, c: Id)
    requires FreshIds(s) && (forall t :: t in s.txns ==> s.txns[t].customer < s.nextCustomer)
    ensures var m := BulkImport.Imported(s, merchant, rows);
            && FreshIds(m) && m.txns == s.txns && s.nextCustomer <= m.nextCustomer
            && (c in s.customers ==> c in m.customers && m.customers[c] == s.customers[c])
            && (c in m.customers && c !in s.customers ==> c >= s.nextCustomer && ScoredSince(m, c, NeverScored))
  {
    hide Added, FreshIds, Own, Verdict;
    if rows != [] {
      var n := |rows| - 1;
      var before := BulkImport.Imported(s, merchant, rows[..n]);
      ImportAppends(s, merchant, rows[..n], c);
      AddedAppends(before, merchant, rows[n].name, rows[n].phone, rows[n].address, c);
      OwnReads(before, BulkImport.Imported(s, merchant, rows), c);
    }
  }

  lemma OwnersAreOld(s: State)
    requires FreshIds(s) && Linked(s)
    ensures forall t :: t in s.txns ==> s.txns[t].customer < s.nextCustomer
  {
    forall t | t in s.txns ensures s.txns[t].customer < s.nextCustomer {
      assert IsCustomerOf(s, s.txns[t].customer, s.txns[t].merchant);
    }
  }

  lemma NewcomerStarts(s: State, clock: int, e: Event, c: Id)
    requires Inv(s, clock) && clock <= e.at <= e.scoredAt
    requires c !in s.customers && c in Next(s, e).customers
    ensures c >= s.nextCustomer && ScoredSince(Next(s, e), c, NeverScored)
  {
    hide Own, Score, Rescored, Recorded, Corrected, Reversed, Exact, Scored, UniquePhones, Added, Linked;
    OwnersAreOld(s);
    match e.op
    case AddCustomer(merchant, name, phone, address) =>
      AddedAppends(s, merchant, name, phone, address, c);
    case Import(merchant, columns, rows) =>
      ImportAppends(s, merchant, BulkImport.ReadRows(columns, rows), c);
    case DeleteCustomer(merchant, cid) =>
      assert false;
    case _ =>
      NextTouches(s, clock, e);
      assert false;
  }

  /** An operation that does not rescore a customer it keeps leaves it and its
      transactions alone. */
  lemma UnscoredKept(s: State, clock: int, e: Event, c: Id)
    requires Inv(s, clock) && clock <= e.at <= e.scoredAt
    requires !Rescores(s, e.op, c) && c in s.customers && c in Next(s, e).customers
    ensures Next(s, e).customers[c] == s.customers[c] && Own(Next(s, e), c) == Own(s, c)
  {
    hide Own, Score, Rescored, Recorded, Corrected, Reversed, Exact, Scored, UniquePhones, Added, Linked;
    OwnersAreOld(s);
    match e.op
    case AddCustomer(merchant, name, phone, address) =>
      AddedAppends(s, merchant, name, phone, address, c);
      OwnReads(s, Next(s, e), c);
    case Import(merchant, columns, rows) =>
      ImportAppends(s, merchant, BulkImport.ReadRows(columns, rows), c);
      OwnReads(s, Next(s, e), c);
    case DeleteCustomer(merchant, cid) =>
      if c != cid { CascadedOwn(s, cid, c); }
    case _ =>
      if Next(s, e) != s {
        NextTouches(s, clock, e);
        assert Target(s, e.op) != c;
      }
  }

  lemma CustomerIdsGrow(s: State, e: Event)
    requires FreshIds(s) && Linked(s)
    ensures s.nextCustomer <= Next(s, e).nextCustomer
  {
    hide Own, Score, Verdict, Added;
    OwnersAreOld(s);
    match e.op
    case AddCustomer(merchant, name, phone, address) => AddedAppends(s, merchant, name, phone, address, 0);
    case Import(merchant, columns, rows) => ImportAppends(s, merchant, BulkImport.ReadRows(columns, rows), 0);
    case _ =>
  }

  lemma {:induction false} NeverScoredBeforeCreation(start: int, events: seq<Event>, c: Id)
    requires Timed(start, events) && c >= Run(EMPTY, events).nextCustomer
    ensures LastScored(events, c) == NeverScored
  {
    hide Next, Rescores;
    if events != [] {
      var n := |events| - 1;
      var s := Run(EMPTY, events[..n]);
      RunKeepsInv(start, events[..n]);
      CustomerIdsGrow(s, events[n]);
      NeverScoredBeforeCreation(start, events[..n], c);
      if Rescores(s, events[n].op, c) { RescoredCustomerExists(s, events[n].op, c); }
    }
  }

  /** After any run, what is stored for a customer is the verdict of the last operation
      that rescored it, applied to the transactions and balance of now: nothing that
      happened since has made it stale, except for the clock. */
  lemma {:induction false} StoredScoreIsOfLastScoring(start: int, events: seq<Event>, c: Id)
    requires Timed(start, events) && c in Run(EMPTY, events).customers
    ensures ScoredSince(Run(EMPTY, events), c, LastScored(events, c))
  {
    hide Next, Rescores, Inv, Score, Own;
    var n := |events| - 1;
    var s, e := Run(EMPTY, events[..n]), events[n];
    RunKeepsInv(start, events[..n]);
    if Rescores(s, e.op, c) {
      StoredScoreIsFresh(s, e, c);
    } else if c in s.customers {
      StoredScoreIsOfLastScoring(start, events[..n], c);
      UnscoredKept(s, Clock(start, events[..n]), e, c);
    } else {
      NewcomerStarts(s, Clock(start, events[..n]), e, c);
      NeverScoredBeforeCreation(start, events[..n], c);
    }
  }

  // ---- Defaulters --------------------------------------------------------------------------

  /** Whoever is stored as a defaulter owes money, so no defaulter list misses them. */
  lemma DefaultersOwe(start: int, events: seq<Event>, c: Id, docs: seq<Customer>)
    requires Timed(start, events)
    requires c in Run(EMPTY, events).customers && Run(EMPTY, events).customers[c].category == Defaulter
    requires var s := Run(EMPTY, events);
             Lists(docs, Restrict(Restrict(s.customers, CustomerOf(s.customers[c].merchant)), Owes))
    ensures Run(EMPTY, events).customers[c].balance > 0.0
    ensures Run(EMPTY, events).customers[c] in docs
  {
    hide Score, SumOf, Own, Run, Timed, Linked, UniquePhones;
    RunKeepsInv(start, events);
    var s := Run(EMPTY, events);
    var t :| t <= Clock(start, events) && StoredAt(s, c, t);
    if s.customers[c].balance <= 0.0 {
      SettledBound(Own(s, c), s.customers[c].balance, t);
    }
    OwingListed(docs, s, s.customers[c].merchant);
  }

  // ---- Bounds on stored scores -----------------------------------------------------------------

  /** The edit form only submits positive amounts. */
  predicate PositiveEdits(events: seq<Event>) {
    forall i :: 0 <= i < |events| && events[i].op.EditTxn? ==> events[i].op.amount > 0.0
  }

  lemma NextKeepsPositive(s: State, e: Event)
    requires Positive(s.txns)
    requires e.op.EditTxn? ==> e.op.amount > 0.0
    ensures Positive(Next(s, e).txns)
  {
    hide Score, Own;
    match e.op
    case Import(merchant, columns, rows) => ImportKeepsTxns(s, merchant, BulkImport.ReadRows(columns, rows));
    case _ =>
  }

  lemma {:induction false} ImportKeepsTxns(s: State, merchant: string, rows: seq<BulkImport.Row>)
    ensures BulkImport.Imported(s, merchant, rows).txns == s.txns
  {
    if rows != [] {
      ImportKeepsTxns(s, merchant, rows[..|rows| - 1]);
    }
  }

  lemma {:induction false} RunKeepsPositive(events: seq<Event>)
    requires PositiveEdits(events)
    ensures Positive(Run(EMPTY, events).txns)
  {
    hide Next;
    if events != [] {
      var n := |events| - 1;
      RunKeepsPositive(events[..n]);
      NextKeepsPositive(Run(EMPTY, events[..n]), events[n]);
    }
  }

  /** What a stored score says about the books, in every reachable state. */
  lemma StoredScoreBounds(start: int, events: seq<Event>, c: Id)
    requires Timed(start, events) && PositiveEdits(events)
    requires c in Run(EMPTY, events).customers && Own(Run(EMPTY, events), c) != map[]
    ensures var s := Run(EMPTY, events);
            var score, balance := s.customers[c].score, s.customers[c].balance;
            && (balance <= 0.0 ==> score >= 53)
            && (balance > 0.0 ==> score <= 94)
            && (NumOf(Own(s, c), Payment) == 0 ==> score <= 38)
            && (NumOf(Own(s, c), Credit) == 0 ==> score >= 73)
  {
    hide Score, SumOf, NumOf, Own, Run, Timed, Linked, UniquePhones, Positive;
    RunKeepsInv(start, events);
    RunKeepsPositive(events);
    var s := Run(EMPTY, events);
    var t :| t <= Clock(start, events) && StoredAt(s, c, t);
    var h, balance := Own(s, c), s.customers[c].balance;
    OwnPositive(s, c);
    if balance <= 0.0 { SettledBound(h, balance, t); } else { OwingBound(h, balance, t); }
    if NumOf(h, Payment) == 0 { NeverPaidBound(h, balance, t); }
    if NumOf(h, Credit) == 0 { NeverBorrowedBound(h, balance, t); }
  }

  lemma OwnPositive(s: State, c: Id)
    requires Positive(s.txns)
    ensures Positive(Own(s, c))
  {
  }

  // ---- One operation after another ---------------------------------------------------------------

  /** Deleting the transaction just recorded leaves what a mere rescoring would have left:
      recording and deleting cancel in the collection, in the totals and in the score. */
  lemma DeleteUndoesAdd(s: State, merchant: string, cid: Id, txnType: string, amount: real, note: string,
                        at: int, scoredAt: int, later: int)
    requires FreshIds(s) && AddRefusal(s, merchant, cid, txnType, amount).Done?
    ensures TxnDeleted(TxnAdded(s, merchant, cid, txnType, amount, note, at, scoredAt), s.nextTxn, merchant, later)
         == Rescored(s, cid, later).(nextTxn := s.nextTxn + 1)
  {
    hide Score, Own;
    var a := TxnAdded(s, merchant, cid, txnType, amount, note, at, scoredAt);
    var m := Reversed(a, s.nextTxn);
    assert m.txns == s.txns;
    OwnReads(m, s, cid);
    assert m.customers[cid].balance == s.customers[cid].balance;
    assert Rescored(m, cid, later).customers == Rescored(s, cid, later).customers;
  }

  /** Only the last of several edits counts. */
  lemma LastEditWins(s: State, tid: Id, merchant: string, amount: real, note: string, scoredAt: int,
                     amount': real, note': string, scoredAt': int)
    ensures TxnEdited(TxnEdited(s, tid, merchant, amount, note, scoredAt), tid, merchant, amount', note', scoredAt')
         == TxnEdited(s, tid, merchant, amount', note', scoredAt')
  {
    hide Score, Own;
    if IsTxnOf(s, tid, merchant) {
      var cid := s.txns[tid].customer;
      var a := TxnEdited(s, tid, merchant, amount, note, scoredAt);
      var m, n := Corrected(a, tid, amount', note'), Corrected(s, tid, amount', note');
      assert m.txns == n.txns;
      OwnReads(m, n, cid);
      if cid in s.customers {
        assert m.customers[cid].balance == n.customers[cid].balance;
        assert Rescored(m, cid, scoredAt').customers == Rescored(n, cid, scoredAt').customers;
      }
    }
  }

  // ---- What recording does to the score at the instant of scoring --------------------------------

  /** Recording a payment leaves a score at least as high as rescoring without it would
      have, exactly when the customer had a transaction before. */
  lemma RecordedPaymentNeverLowers(s: State, merchant: string, cid: Id, amount: real, note: string,
                                   at: int, scoredAt: int)
    requires FreshIds(s) && AddRefusal(s, merchant, cid, "payment", amount).Done?
    ensures TxnAdded(s, merchant, cid, "payment", amount, note, at, scoredAt).customers[cid].score
              >= Rescored(s, cid, scoredAt).customers[cid].score
            <==> Own(s, cid) != map[]
  {
    hide Score, Own;
    var t := NewTxn(s, merchant, cid, Payment, amount, note, at);
    var m := Recorded(s, merchant, cid, Payment, amount, note, at);
    OwnAfterInsert(s, t, cid);
    OwnReads(m, WithTxn(s, t), cid);
    NotYetOwned(s, cid);
    PaymentNeverLowers(Own(s, cid), s.nextTxn, t, s.customers[cid].balance, scoredAt);
  }

  lemma NotYetOwned(s: State, cid: Id)
    requires FreshIds(s)
    ensures s.nextTxn !in Own(s, cid)
  {
  }

  /** Recording a credit never leaves a higher score than rescoring without it would have,
      except by the five consistency points of a first credit that payments already cover. */
  lemma RecordedCreditRaisesOnlyByConsistency(s: State, merchant: string, cid: Id, amount: real, note: string,
                                              at: int, scoredAt: int)
    requires FreshIds(s) && Exact(s)
    requires AddRefusal(s, merchant, cid, "credit", amount).Done?
    ensures var scoreWith := TxnAdded(s, merchant, cid, "credit", amount, note, at, scoredAt).customers[cid].score;
            var scoreWithout := Rescored(s, cid, scoredAt).customers[cid].score;
            var rewarded := && Own(s, cid) != map[] && NumOf(Own(s, cid), Credit) == 0
                            && amount <= s.customers[cid].totalPaid && scoredAt - at < 2_678_400_000;
            && (scoreWith <= scoreWithout <==> !rewarded)
            && (rewarded ==> scoreWith == scoreWithout + 5)
  {
    hide Score, Own, SumOf, NumOf;
    var t := NewTxn(s, merchant, cid, Credit, amount, note, at);
    var m := Recorded(s, merchant, cid, Credit, amount, note, at);
    OwnAfterInsert(s, t, cid);
    OwnReads(m, WithTxn(s, t), cid);
    NotYetOwned(s, cid);
    assert ExactFor(s, cid);
    CreditRaisesOnlyByConsistency(Own(s, cid), s.nextTxn, t, s.customers[cid].balance, scoredAt);
  }

  /** Deleting a payment never leaves a higher score than rescoring with it would have,
      unless it was the customer's only transaction: an empty history scores 100. */
  lemma DeletedPaymentNeverRaises(s: State, tid: Id, merchant: string, scoredAt: int)
    requires IsTxnOf(s, tid, merchant) && s.txns[tid].kind == Payment && s.txns[tid].amount > 0.0
    requires s.txns[tid].customer in s.customers
    ensures var cid := s.txns[tid].customer;
            TxnDeleted(s, tid, merchant, scoredAt).customers[cid].score
              <= Rescored(s, cid, scoredAt).customers[cid].score
            <==> Own(s, cid) != map[tid := s.txns[tid]]
  {
    hide Score, Own;
    var t, cid := s.txns[tid], s.txns[tid].customer;
    var h := TakenOut(s, tid);
    OwnAfterRemoval(s, tid, cid);
    OwnReads(Reversed(s, tid), WithoutTxn(s, tid), cid);
    PaymentNeverLowers(h, tid, t, s.customers[cid].balance + t.amount, scoredAt);
  }

  /** What is left of the owner's transactions without tid. */
  lemma TakenOut(s: State, tid: Id) returns (h: History)
    requires tid in s.txns
    ensures h == Own(s, s.txns[tid].customer) - {tid} && tid !in h
    ensures h[tid := s.txns[tid]] == Own(s, s.txns[tid].customer)
    ensures h == map[] <==> Own(s, s.txns[tid].customer) == map[tid := s.txns[tid]]
  {
    h := Own(s, s.txns[tid].customer) - {tid};
    assert h[tid := s.txns[tid]] == Own(s, s.txns[tid].customer);
  }

  /** Deleting a credit never leaves a lower score than rescoring with it would have, except
      by the five consistency points when it was the only credit and payments covered it. */
  lemma DeletedCreditLowersOnlyByConsistency(s: State, tid: Id, merchant: string, scoredAt: int)
    requires Exact(s)
    requires IsTxnOf(s, tid, merchant) && s.txns[tid].kind == Credit && s.txns[tid].amount > 0.0
    requires s.txns[tid].customer in s.customers
    ensures var t, cid := s.txns[tid], s.txns[tid].customer;
            var scoreWithout := TxnDeleted(s, tid, merchant, scoredAt).customers[cid].score;
            var scoreWith := Rescored(s, cid, scoredAt).customers[cid].score;
            var rewarded := && Own(s, cid) != map[tid := t] && NumOf(Own(s, cid), Credit) == 1
                            && t.amount <= s.customers[cid].totalPaid && scoredAt - t.date < 2_678_400_000;
            && (scoreWithout >= scoreWith <==> !rewarded)
            && (rewarded ==> scoreWithout == scoreWith - 5)
  {
    hide Score, Own, SumOf, NumOf;
    var t, cid := s.txns[tid], s.txns[tid].customer;
    var h := TakenOut(s, tid);
    OwnAfterRemoval(s, tid, cid);
    OwnReads(Reversed(s, tid), WithoutTxn(s, tid), cid);
    assert ExactFor(s, cid);
    SumPut(h, tid, t, Credit);
    SumPut(h, tid, t, Payment);
    NumPut(h, tid, t, Credit);
    CreditRaisesOnlyByConsistency(h, tid, t, s.customers[cid].balance - t.amount, scoredAt);
  }

  /** Correcting an amount upwards leaves a score no lower for a payment, and no higher for
      a credit, than rescoring without the correction would have. */
  lemma EditedAmountMovesScore(s: State, tid: Id, merchant: string, amount: real, note: string, scoredAt: int)
    requires IsTxnOf(s, tid, merchant) && amount >= s.txns[tid].amount
    ensures var cid := s.txns[tid].customer;
            cid in s.customers ==>
              var scoreWith := TxnEdited(s, tid, merchant, amount, note, scoredAt).customers[cid].score;
              var scoreWithout := Rescored(s, cid, scoredAt).customers[cid].score;
              if s.txns[tid].kind == Payment then scoreWith >= scoreWithout else scoreWith <= scoreWithout
  {
    hide Score, Own;
    var cid := s.txns[tid].customer;
    if cid in s.customers {
      var m := Corrected(s, tid, amount, note);
      var t := s.txns[tid].(amount := amount, note := note, edited := true);
      OwnAfterAmount(s, tid, amount, note, cid);
      OwnReads(m, WithAmount(s, tid, amount, note), cid);
      Owned(s, tid);
      EditMonotone(Own(s, cid), tid, t, s.customers[cid].balance, scoredAt);
    }
  }

  lemma Owned(s: State, tid: Id)
    requires tid in s.txns
    ensures tid in Own(s, s.txns[tid].customer) && Own(s, s.txns[tid].customer)[tid] == s.txns[tid]
  {
  }

  // ---- Merchants do not see each other -----------------------------------------------------------

  /** The merchant whose page issues the operation. */
  predicate ActsFor(s: State, op: Op, merchant: string) {
    match op
    case Rescore(cid) => IsCustomerOf(s, cid, merchant)
    case _ => op.merchant == merchant
  }

  lemma TouchedCustomersFramed(s: State, m: State, cid: Id, other: string)
    requires OnlyTouches(s, m, cid)
    requires cid in s.customers ==> s.customers[cid].merchant != other
    ensures Restrict(m.customers, CustomerOf(other)) == Restrict(s.customers, CustomerOf(other))
  {
  }

  lemma AddedFramed(s: State, merchant: string, name: string, phone: string, address: string, other: string)
    requires FreshIds(s) && merchant != other
    ensures SameFor(s, Added(s, merchant, name, phone, address), other)
    ensures FreshIds(Added(s, merchant, name, phone, address))
  {
  }

  lemma {:induction false} ImportFramed(s: State, merchant: string, rows: seq<BulkImport.Row>, other: string)
    requires FreshIds(s) && merchant != other
    ensures SameFor(s, BulkImport.Imported(s, merchant, rows), other)
    ensures FreshIds(BulkImport.Imported(s, merchant, rows))
  {
    hide FreshIds, Added;
    if rows != [] {
      var n := |rows| - 1;
      ImportFramed(s, merchant, rows[..n], other);
      AddedFramed(BulkImport.Imported(s, merchant, rows[..n]), merchant,
                  rows[n].name, rows[n].phone, rows[n].address, other);
    }
  }

  lemma CascadeFramed(s: State, cid: Id, merchant: string, other: string)
    requires Linked(s) && merchant != other
    ensures SameFor(s, Cascaded(s, cid, merchant), other)
  {
  }

  lemma InsertFramed(s: State, t: Txn, other: string)
    requires FreshIds(s) && t.merchant != other
    ensures Restrict(WithTxn(s, t).txns, OfMerchant(other)) == Restrict(s.txns, OfMerchant(other))
  {
  }

  lemma AmountFramed(s: State, tid: Id, amount: real, note: string, other: string)
    requires tid in s.txns && s.txns[tid].merchant != other
    ensures Restrict(WithAmount(s, tid, amount, note).txns, OfMerchant(other)) == Restrict(s.txns, OfMerchant(other))
  {
  }

  lemma RemovalFramed(s: State, tid: Id, other: string)
    requires tid in s.txns && s.txns[tid].merchant != other
    ensures Restrict(WithoutTxn(s, tid).txns, OfMerchant(other)) == Restrict(s.txns, OfMerchant(other))
  {
  }

  lemma TxnsFramed(s: State, e: Event, other: string)
    requires FreshIds(s) && !ActsFor(s, e.op, other)
    requires e.op.AddTxn? || e.op.EditTxn? || e.op.DeleteTxn? || e.op.Rescore?
    ensures Restrict(Next(s, e).txns, OfMerchant(other)) == Restrict(s.txns, OfMerchant(other))
  {
    hide Score, Own, Restrict;
    match e.op
    case AddTxn(merchant, cid, txnType, amount, note) =>
      if IsCustomerOf(s, cid, merchant) {
        InsertFramed(s, NewTxn(s, merchant, cid, KindOf(txnType), amount, note, e.at), other);
      }
    case EditTxn(merchant, tid, amount, note) =>
      if IsTxnOf(s, tid, merchant) { AmountFramed(s, tid, amount, note, other); }
    case DeleteTxn(merchant, tid) =>
      if IsTxnOf(s, tid, merchant) { RemovalFramed(s, tid, other); }
    case Rescore(cid) =>
  }

  /** In a reachable state an operation of one merchant leaves every other merchant's
      customers and transactions as they were. */
  lemma OthersUntouched(s: State, clock: int, e: Event, other: string)
    requires Inv(s, clock) && clock <= e.at <= e.scoredAt
    requires !ActsFor(s, e.op, other)
    ensures SameFor(s, Next(s, e), other)
  {
    hide Own, Rescored, Recorded, Corrected, Reversed, Exact, Scored, UniquePhones, Added, Cascaded, OnlyTouches;
    match e.op
    case AddCustomer(merchant, name, phone, address) =>
      AddedFramed(s, merchant, name, phone, address, other);
    case Import(merchant, columns, rows) =>
      ImportFramed(s, merchant, BulkImport.ReadRows(columns, rows), other);
    case DeleteCustomer(merchant, cid) =>
      CascadeFramed(s, cid, merchant, other);
    case _ =>
      if Next(s, e) != s {
        TxnsFramed(s, e, other);
        NextTouches(s, clock, e);
        TouchedCustomersFramed(s, Next(s, e), Target(s, e.op), other);
      }
  }

  /** Hence every report for another merchant comes out the same before and after: the
      summary figures and the monthly trend, under any calendar. */
  lemma OthersReportsUntouched(s: State, clock: int, e: Event, other: string, cal: Calendar,
                               before: Stats, after: Stats, trendBefore: seq<TrendRow>, trendAfter: seq<TrendRow>)
    requires Inv(s, clock) && clock <= e.at <= e.scoredAt
    requires !ActsFor(s, e.op, other)
    requires Describes(before, Restrict(s.customers, CustomerOf(other)), Restrict(s.txns, OfMerchant(other)))
    requires var m := Next(s, e);
             Describes(after, Restrict(m.customers, CustomerOf(other)), Restrict(m.txns, OfMerchant(other)))
    requires Shows(trendBefore, Restrict(s.txns, OfMerchant(other)), cal)
    requires Shows(trendAfter, Restrict(Next(s, e).txns, OfMerchant(other)), cal)
    ensures before == after && trendBefore == trendAfter
  {
    hide Inv, Next, Restrict, Shows, SumOf, Total;
    OthersUntouched(s, clock, e, other);
    TrendUnique(trendBefore, trendAfter, Restrict(s.txns, OfMerchant(other)), cal);
  }

  /** So do its lists, up to the order of documents with equal dates: the history page, of
      all customers or of one, and the list of customers who owe. */
  lemma OthersListsUntouched(s: State, clock: int, e: Event, other: string, cid: Selection,
                             before: seq<Txn>, after: seq<Txn>, owing: seq<Customer>, owing': seq<Customer>)
    requires Inv(s, clock) && clock <= e.at <= e.scoredAt
    requires !ActsFor(s, e.op, other)
    requires Lists(before, Selected(s, other, cid)) && Lists(after, Selected(Next(s, e), other, cid))
    requires Lists(owing, Restrict(Restrict(s.customers, CustomerOf(other)), Owes))
    requires Lists(owing', Restrict(Restrict(Next(s, e).customers, CustomerOf(other)), Owes))
    ensures multiset(before) == multiset(after) && multiset(owing) == multiset(owing')
  {
    hide Inv, Next, Restrict, Lists;
    OthersUntouched(s, clock, e, other);
    ListedTwice(before, after, Selected(s, other, cid));
    ListedTwice(owing, owing', Restrict(Restrict(s.customers, CustomerOf(other)), Owes));
  }
}
