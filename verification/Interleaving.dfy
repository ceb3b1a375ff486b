/** Concurrent requests: every operation cut into the database steps it performs, any
    number of operations in flight, their steps in any order. */
module Interleaving {
  import opened Collections
  import opened Records
  import opened Scoring
  import opened Store
  import opened Customers
  import opened Transactions
  import opened Ledger

  /** What an operation in flight has read so far and will do next. */
  datatype Stage =
    | CustomerDue(merchant: string, name: string, phone: string, address: string)
    | InsertDue(merchant: string, cid: Id, name: string, kind: Kind, amount: real, note: string)
    | AmountDue(tid: Id, cid: Id, kind: Kind, seen: real, amount: real, note: string)
    | RemovalDue(tid: Id, cid: Id, kind: Kind, seen: real)
    | IncrementDue(cid: Id, kind: Kind, delta: real)
    | ScoreDue(cid: Id)
    | CascadeDue(cid: Id)

  datatype World = World(db: State, flight: map<nat, Stage>)

  const START := World(EMPTY, map[])

  datatype Step =
    | BeginAddCustomer(op: nat, merchant: string, name: string, phone: string, address: string)
    | InsertCustomer(op: nat)
    | BeginAdd(op: nat, merchant: string, cid: Id, txnType: string, amount: real, note: string)
    | Insert(op: nat, at: int)
    | BeginEdit(op: nat, tid: Id, merchant: string, amount: real, note: string)
    | SetAmount(op: nat)
    | BeginDelete(op: nat, tid: Id, merchant: string)
    | Remove(op: nat)
    | Increment(op: nat)
    | BeginRescore(op: nat, cid: Id)
    | PutScore(op: nat, score: int, category: Category)
    | BeginDeleteCustomer(op: nat, cid: Id, merchant: string)
    | Cascade(op: nat)

  /** The effect of one step; a step that cannot be taken changes nothing. Score writes
      carry any value, so they cover every stale rescoring too. */
  function Apply(w: World, step: Step): World {
    var s, f := w.db, w.flight;
    match step
    case BeginAddCustomer(op, merchant, name, phone, address) =>
      if op !in f && !PhoneTaken(s, merchant, phone)
      then w.(flight := f[op := CustomerDue(merchant, name, phone, address)])
      else w
    case InsertCustomer(op) =>
      if op in f && f[op].CustomerDue? then
        var d := f[op];
        World(WithCustomer(s, NewCustomer(d.merchant, d.name, d.phone, d.address)), f - {op})
      else w
    case BeginAdd(op, merchant, cid, txnType, amount, note) =>
      if op !in f && AddRefusal(s, merchant, cid, txnType, amount).Done?
      then w.(flight := f[op := InsertDue(merchant, cid, s.customers[cid].name, KindOf(txnType), amount, note)])
      else w
    case Insert(op, at) =>
      if op in f && f[op].InsertDue? then
        var d := f[op];
        World(WithTxn(s, Txn(d.merchant, d.cid, d.name, d.kind, d.amount, d.note, at, false)),
              f[op := IncrementDue(d.cid, d.kind, d.amount)])
      else w
    case BeginEdit(op, tid, merchant, amount, note) =>
      if op !in f && IsTxnOf(s, tid, merchant) then
        var t := s.txns[tid];
        w.(flight := f[op := AmountDue(tid, t.customer, t.kind, t.amount, amount, note)])
      else w
    case SetAmount(op) =>
      if op in f && f[op].AmountDue? then
        var d := f[op];
        World(WithAmount(s, d.tid, d.amount, d.note), f[op := IncrementDue(d.cid, d.kind, d.amount - d.seen)])
      else w
    case BeginDelete(op, tid, merchant) =>
      if op !in f && IsTxnOf(s, tid, merchant) then
        var t := s.txns[tid];
        w.(flight := f[op := RemovalDue(tid, t.customer, t.kind, t.amount)])
      else w
    case Remove(op) =>
      if op in f && f[op].RemovalDue? then
        var d := f[op];
        World(WithoutTxn(s, d.tid), f[op := IncrementDue(d.cid, d.kind, -d.seen)])
      else w
    case Increment(op) =>
      if op in f && f[op].IncrementDue? then
        World(Posted(s, f[op].cid, f[op].kind, f[op].delta), f[op := ScoreDue(f[op].cid)])
      else w
    case BeginRescore(op, cid) =>
      if op !in f then w.(flight := f[op := ScoreDue(cid)]) else w
    case PutScore(op, score, category) =>
      if op in f && f[op].ScoreDue? then World(WithScore(s, f[op].cid, score, category), f - {op}) else w
    case BeginDeleteCustomer(op, cid, merchant) =>
      if op !in f && IsCustomerOf(s, cid, merchant)
      then World(WithoutCustomer(s, cid), f[op := CascadeDue(cid)])
      else w
    case Cascade(op) =>
      if op in f && f[op].CascadeDue? then World(WithoutHistory(s, f[op].cid), f - {op}) else w
  }

  function Run(w: World, steps: seq<Step>): World {
    if steps == [] then w else Apply(Run(w, steps[..|steps| - 1]), steps[|steps| - 1])
  }

  // ---- What every interleaving keeps ---------------------------------------------------------

  /** The amount an operation in flight still has to post to a customer. */
  function DueTo(cid: Id, kind: Kind): Stage -> real {
    (d: Stage) => if d.IncrementDue? && d.cid == cid && d.kind == kind then d.delta else 0.0
  }

  ghost predicate StageOk(s: State, d: Stage) {
    && (!d.ScoreDue? && !d.CustomerDue? ==> d.cid < s.nextCustomer)
    && (d.InsertDue? && d.cid in s.customers ==> s.customers[d.cid].merchant == d.merchant)
    && (d.AmountDue? || d.RemovalDue? ==>
          d.tid < s.nextTxn
          && (d.tid in s.txns ==> s.txns[d.tid].customer == d.cid && s.txns[d.tid].kind == d.kind))
    && (d.CascadeDue? ==> d.cid !in s.customers)
  }

  ghost predicate WellFormed(w: World) {
    && FreshIds(w.db)
    && (forall t :: t in w.db.txns ==> w.db.txns[t].customer < w.db.nextCustomer)
    && (forall c :: c in w.db.customers ==>
          w.db.customers[c].balance == w.db.customers[c].totalCredit - w.db.customers[c].totalPaid)
    && (forall op :: op in w.flight ==> StageOk(w.db, w.flight[op]))
  }

  lemma StepKeepsStages(w: World, step: Step, o: nat)
    requires WellFormed(w) && o in Apply(w, step).flight
    ensures StageOk(Apply(w, step).db, Apply(w, step).flight[o])
  {
    hide Own;
    if o in w.flight {
      assert StageOk(w.db, w.flight[o]);
    }
  }

  lemma StepKeepsWellFormed(w: World, step: Step)
    requires WellFormed(w)
    ensures WellFormed(Apply(w, step))
  {
    forall o | o in Apply(w, step).flight ensures StageOk(Apply(w, step).db, Apply(w, step).flight[o]) {
      StepKeepsStages(w, step, o);
    }
    StepKeepsBooks(w, step);
  }

  lemma StepKeepsBooks(w: World, step: Step)
    requires WellFormed(w)
    ensures var s := Apply(w, step).db;
            && FreshIds(s)
            && (forall t :: t in s.txns ==> s.txns[t].customer < s.nextCustomer)
            && (forall c :: c in s.customers ==>
                  s.customers[c].balance == s.customers[c].totalCredit - s.customers[c].totalPaid)
  {
    hide Own;
    if step.Insert? && step.op in w.flight {
      assert StageOk(w.db, w.flight[step.op]);
    }
  }

  // ---- The flight ---------------------------------------------------------------------------------

  lemma FlightPut(f: map<nat, Stage>, op: nat, d: Stage, c: Id, kind: Kind)
    ensures Total(f[op := d], DueTo(c, kind))
         == Total(f, DueTo(c, kind)) - (if op in f then DueTo(c, kind)(f[op]) else 0.0) + DueTo(c, kind)(d)
  {
    TotalPut(f, DueTo(c, kind), op, d);
  }

  lemma FlightDrop(f: map<nat, Stage>, op: nat, c: Id, kind: Kind)
    requires op in f && !f[op].IncrementDue?
    ensures Total(f - {op}, DueTo(c, kind)) == Total(f, DueTo(c, kind))
  {
    TotalRemove(f, DueTo(c, kind), op);
  }

  lemma NothingDue(f: map<nat, Stage>, c: Id, kind: Kind)
    requires forall op :: op in f ==> f[op].IncrementDue? ==> f[op].cid != c
    ensures Total(f, DueTo(c, kind)) == 0.0
  {
  }

  // ---- Conservation, step by step -------------------------------------------------------------------

  /** How far customer c's stored total of one kind is from its transactions, counting
      what operations in flight still have to post. */
  ghost function Gap(w: World, c: Id, kind: Kind): real
    requires c in w.db.customers
  {
    Cached(w.db.customers[c], kind) + Total(w.flight, DueTo(c, kind)) - SumOf(Own(w.db, c), kind)
  }

  /** By how much a step's write misjudges what it does to customer c's transactions. */
  function Misread(w: World, step: Step, c: Id, kind: Kind): real {
    match step
    case SetAmount(op) =>
      if op in w.flight && w.flight[op].AmountDue? && w.flight[op].cid == c && w.flight[op].kind == kind then
        var d := w.flight[op];
        if d.tid in w.db.txns then w.db.txns[d.tid].amount - d.seen else d.amount - d.seen
      else 0.0
    case Remove(op) =>
      if op in w.flight && w.flight[op].RemovalDue? && w.flight[op].cid == c && w.flight[op].kind == kind then
        var d := w.flight[op];
        if d.tid in w.db.txns then w.db.txns[d.tid].amount - d.seen else -d.seen
      else 0.0
    case _ => 0.0
  }

  lemma InsertMovesGap(w: World, op: nat, at: int, c: Id, kind: Kind)
    requires FreshIds(w.db) && op in w.flight && w.flight[op].InsertDue? && c in w.db.customers
    ensures Gap(Apply(w, Insert(op, at)), c, kind) == Gap(w, c, kind)
  {
    hide Total, SumOf, Own;
    var w' := Apply(w, Insert(op, at));
    SumAfterInsert(w.db, w'.db.txns[w.db.nextTxn], c, kind);
    FlightPut(w.flight, op, w'.flight[op], c, kind);
  }

  lemma AmountMovesGap(w: World, op: nat, c: Id, kind: Kind)
    requires op in w.flight && w.flight[op].AmountDue? && StageOk(w.db, w.flight[op]) && c in w.db.customers
    ensures Gap(Apply(w, SetAmount(op)), c, kind) == Gap(w, c, kind) + Misread(w, SetAmount(op), c, kind)
  {
    hide Total, SumOf, Own;
    var d := w.flight[op];
    SumAfterAmount(w.db, d.tid, d.amount, d.note, c, kind);
    FlightPut(w.flight, op, IncrementDue(d.cid, d.kind, d.amount - d.seen), c, kind);
  }

  lemma RemovalMovesGap(w: World, op: nat, c: Id, kind: Kind)
    requires op in w.flight && w.flight[op].RemovalDue? && StageOk(w.db, w.flight[op]) && c in w.db.customers
    ensures Gap(Apply(w, Remove(op)), c, kind) == Gap(w, c, kind) + Misread(w, Remove(op), c, kind)
  {
    hide Total, SumOf, Own;
    var d := w.flight[op];
    SumAfterRemoval(w.db, d.tid, c, kind);
    FlightPut(w.flight, op, IncrementDue(d.cid, d.kind, -d.seen), c, kind);
  }

  lemma IncrementMovesGap(w: World, op: nat, c: Id, kind: Kind)
    requires op in w.flight && w.flight[op].IncrementDue? && c in w.db.customers
    ensures Gap(Apply(w, Increment(op)), c, kind) == Gap(w, c, kind)
  {
    hide Total, SumOf, Own;
    var w' := Apply(w, Increment(op));
    OwnReads(w'.db, w.db, c);
    FlightPut(w.flight, op, w'.flight[op], c, kind);
  }

  /** The last step of an operation posts nothing. */
  lemma LandingKeepsGap(w: World, step: Step, c: Id, kind: Kind)
    requires WellFormed(w) && Apply(w, step) != w
    requires step.InsertCustomer? || step.PutScore? || step.Cascade?
    requires c in w.db.customers && c in Apply(w, step).db.customers
    ensures Gap(Apply(w, step), c, kind) == Gap(w, c, kind)
  {
    hide Total, SumOf, Own;
    FlightDrop(w.flight, step.op, c, kind);
    if step.Cascade? {
      assert StageOk(w.db, w.flight[step.op]);
      SumAfterCascade(w.db, w.flight[step.op].cid, c, kind);
    } else {
      OwnReads(Apply(w, step).db, w.db, c);
    }
  }

  /** The first step of an operation only looks things up, or deletes a customer. */
  lemma StartKeepsGap(w: World, step: Step, c: Id, kind: Kind)
    requires Apply(w, step) != w
    requires step.BeginAddCustomer? || step.BeginAdd? || step.BeginEdit? || step.BeginDelete? || step.BeginRescore?
          || step.BeginDeleteCustomer?
    requires c in w.db.customers && c in Apply(w, step).db.customers
    ensures Gap(Apply(w, step), c, kind) == Gap(w, c, kind)
  {
    hide Total, SumOf, Own, AddRefusal, IsTxnOf, PhoneTaken;
    OwnReads(Apply(w, step).db, w.db, c);
    FlightPut(w.flight, step.op, Apply(w, step).flight[step.op], c, kind);
  }

  /** A step moves the gap of a customer by exactly what it misreads. */
  lemma StepMovesGap(w: World, step: Step, c: Id, kind: Kind)
    requires WellFormed(w)
    requires c in w.db.customers && c in Apply(w, step).db.customers
    ensures Gap(Apply(w, step), c, kind) == Gap(w, c, kind) + Misread(w, step, c, kind)
  {
    hide Total, SumOf, Own, StageOk, AddRefusal, IsTxnOf, PhoneTaken, Posted, WithAmount, Gap;
    if Apply(w, step) != w {
      match step
      case Insert(op, at) => InsertMovesGap(w, op, at, c, kind);
      case SetAmount(op) => AmountMovesGap(w, op, c, kind);
      case Remove(op) => RemovalMovesGap(w, op, c, kind);
      case Increment(op) => IncrementMovesGap(w, op, c, kind);
      case InsertCustomer(op) => LandingKeepsGap(w, step, c, kind);
      case PutScore(op, score, category) => LandingKeepsGap(w, step, c, kind);
      case Cascade(op) => LandingKeepsGap(w, step, c, kind);
      case _ => StartKeepsGap(w, step, c, kind);
    }
  }

  // ---- Whole runs -----------------------------------------------------------------------------------

  /** The sum of all misreadings of customer c's transactions in a run. */
  function Drift(w: World, steps: seq<Step>, c: Id, kind: Kind): real {
    if steps == [] then 0.0
    else
      var n := |steps| - 1;
      Drift(w, steps[..n], c, kind) + Misread(Run(w, steps[..n]), steps[n], c, kind)
  }

  lemma {:induction false} RunKeepsWellFormed(steps: seq<Step>)
    ensures WellFormed(Run(START, steps))
  {
    hide Apply;
    if steps != [] {
      RunKeepsWellFormed(steps[..|steps| - 1]);
      StepKeepsWellFormed(Run(START, steps[..|steps| - 1]), steps[|steps| - 1]);
    }
  }

  lemma CustomersComeOnce(w: World, step: Step, c: Id)
    ensures w.db.nextCustomer <= Apply(w, step).db.nextCustomer
    ensures c in Apply(w, step).db.customers && c !in w.db.customers ==>
              step.InsertCustomer? && step.op in w.flight && w.flight[step.op].CustomerDue? && c == w.db.nextCustomer
  {
  }

  lemma {:induction false} NoDriftBeforeCreation(steps: seq<Step>, c: Id, kind: Kind)
    requires c >= Run(START, steps).db.nextCustomer
    ensures Drift(START, steps, c, kind) == 0.0
  {
    hide Apply;
    if steps != [] {
      var n := |steps| - 1;
      var w := Run(START, steps[..n]);
      RunKeepsWellFormed(steps[..n]);
      CustomersComeOnce(w, steps[n], c);
      NoDriftBeforeCreation(steps[..n], c, kind);
      UnbornNotMisread(w, steps[n], c, kind);
    }
  }

  lemma UnbornNotMisread(w: World, step: Step, c: Id, kind: Kind)
    requires WellFormed(w) && c >= w.db.nextCustomer
    ensures Misread(w, step, c, kind) == 0.0
  {
  }

  lemma NewbornHasNoGap(w: World, step: Step, c: Id, kind: Kind)
    requires WellFormed(w) && c == w.db.nextCustomer
    requires step.InsertCustomer? && step.op in w.flight && w.flight[step.op].CustomerDue?
    ensures c in Apply(w, step).db.customers && Gap(Apply(w, step), c, kind) == 0.0
  {
    hide Total;
    var w' := Apply(w, step);
    assert Own(w'.db, c) == map[];
    NothingRecorded(0);
    NothingDue(w'.flight, c, kind);
  }

  /** In every interleaved run whatsoever, a customer's stored total plus the amounts still
      to be posted misses the sum over the collection by exactly what was misread. */
  lemma {:induction false} GapIsDrift(steps: seq<Step>, c: Id, kind: Kind)
    requires c in Run(START, steps).db.customers
    ensures Gap(Run(START, steps), c, kind) == Drift(START, steps, c, kind)
  {
    hide Apply, Gap, Misread;
    if steps != [] {
      var n := |steps| - 1;
      var w := Run(START, steps[..n]);
      RunKeepsWellFormed(steps[..n]);
      if c in w.db.customers {
        GapIsDrift(steps[..n], c, kind);
        StepMovesGap(w, steps[n], c, kind);
      } else {
        CustomersComeOnce(w, steps[n], c);
        NewbornHasNoGap(w, steps[n], c, kind);
        NoDriftBeforeCreation(steps[..n], c, kind);
        UnbornNotMisread(w, steps[n], c, kind);
      }
    }
  }

  /** With nothing left to post, a customer's totals are exact if and only if the
      misreadings of each kind cancel. */
  lemma ExactIffNoDrift(steps: seq<Step>, c: Id)
    requires c in Run(START, steps).db.customers
    requires forall op :: op in Run(START, steps).flight ==> !Run(START, steps).flight[op].IncrementDue?
    ensures ExactFor(Run(START, steps).db, c)
       <==> Drift(START, steps, c, Credit) == 0.0 && Drift(START, steps, c, Payment) == 0.0
  {
    hide Total, SumOf, Own, Run, Drift;
    var w := Run(START, steps);
    RunKeepsWellFormed(steps);
    GapIsDrift(steps, c, Credit);
    GapIsDrift(steps, c, Payment);
    NothingDue(w.flight, c, Credit);
    NothingDue(w.flight, c, Payment);
  }

  // ---- One operation at a time on a transaction ---------------------------------------------------------

  predicate Holds(d: Stage, tid: Id) {
    (d.AmountDue? || d.RemovalDue?) && d.tid == tid
  }

  /** The guard: no edit or deletion starts on a transaction that another one has read
      and not written yet. */
  predicate Exclusive(w: World, step: Step) {
    match step
    case BeginEdit(op, tid, merchant, amount, note) => forall o :: o in w.flight ==> !Holds(w.flight[o], tid)
    case BeginDelete(op, tid, merchant) => forall o :: o in w.flight ==> !Holds(w.flight[o], tid)
    case _ => true
  }

  predicate ExclusiveRun(w: World, steps: seq<Step>) {
    steps == [] || (
      var n := |steps| - 1;
      ExclusiveRun(w, steps[..n]) && Exclusive(Run(w, steps[..n]), steps[n]))
  }

  /** No transaction is read by two operations that have not written it yet. */
  ghost predicate HeldOnce(f: map<nat, Stage>) {
    forall o, p, tid :: o in f && p in f && Holds(f[o], tid) && Holds(f[p], tid) ==> o == p
  }

  /** What d has read and not written yet is still what is stored. */
  ghost predicate SeenStill(s: State, d: Stage) {
    (d.AmountDue? || d.RemovalDue?) && d.cid in s.customers ==> d.tid in s.txns && s.txns[d.tid].amount == d.seen
  }

  ghost predicate Current(w: World) {
    HeldOnce(w.flight) && forall o :: o in w.flight ==> SeenStill(w.db, w.flight[o])
  }

  lemma StaysHeldOnce(w: World, step: Step)
    requires HeldOnce(w.flight) && Exclusive(w, step)
    ensures HeldOnce(Apply(w, step).flight)
  {
  }

  lemma StaysSeen(w: World, step: Step, o: nat)
    requires WellFormed(w) && Current(w) && o in w.flight && o in Apply(w, step).flight
    requires Apply(w, step).flight[o] == w.flight[o]
    ensures SeenStill(Apply(w, step).db, w.flight[o])
  {
    var d := w.flight[o];
    assert StageOk(w.db, d);
    if d.AmountDue? || d.RemovalDue? {
      assert Holds(d, d.tid);
      if (step.SetAmount? || step.Remove?) && step.op in w.flight {
        assert Holds(w.flight[step.op], d.tid) ==> step.op == o;
      }
    }
  }

  lemma ExclusiveKeepsCurrent(w: World, step: Step)
    requires WellFormed(w) && Current(w) && Exclusive(w, step)
    ensures Current(Apply(w, step))
  {
    hide WellFormed, HeldOnce;
    StaysHeldOnce(w, step);
    var w' := Apply(w, step);
    forall o | o in w'.flight ensures SeenStill(w'.db, w'.flight[o]) {
      if o in w.flight && w'.flight[o] == w.flight[o] {
        StaysSeen(w, step, o);
      }
    }
  }

  lemma CurrentNotMisread(w: World, step: Step, c: Id, kind: Kind)
    requires Current(w) && c in w.db.customers
    ensures Misread(w, step, c, kind) == 0.0
  {
  }

  lemma {:induction false} ExclusiveRunStaysCurrent(steps: seq<Step>)
    requires ExclusiveRun(START, steps)
    ensures Current(Run(START, steps))
  {
    hide Apply, Exclusive;
    if steps != [] {
      var n := |steps| - 1;
      ExclusiveRunStaysCurrent(steps[..n]);
      RunKeepsWellFormed(steps[..n]);
      ExclusiveKeepsCurrent(Run(START, steps[..n]), steps[n]);
    }
  }

  lemma {:induction false} ExclusiveRunNeverDrifts(steps: seq<Step>, c: Id, kind: Kind)
    requires ExclusiveRun(START, steps)
    requires c in Run(START, steps).db.customers
    ensures Drift(START, steps, c, kind) == 0.0
  {
    hide Apply, Exclusive, Misread;
    if steps != [] {
      var n := |steps| - 1;
      var w := Run(START, steps[..n]);
      RunKeepsWellFormed(steps[..n]);
      ExclusiveRunStaysCurrent(steps[..n]);
      if c in w.db.customers {
        ExclusiveRunNeverDrifts(steps[..n], c, kind);
        CurrentNotMisread(w, steps[n], c, kind);
      } else {
        CustomersComeOnce(w, steps[n], c);
        NoDriftBeforeCreation(steps[..n], c, kind);
        UnbornNotMisread(w, steps[n], c, kind);
      }
    }
  }

  /** Any number of operations in flight, in any interleaving that respects the guard:
      stored totals plus amounts still to be posted are the sums over the collection, and
      every stored balance is the difference of the stored totals. */
  lemma ExclusiveRunConserves(steps: seq<Step>, c: Id, kind: Kind)
    requires ExclusiveRun(START, steps)
    requires c in Run(START, steps).db.customers
    ensures var w := Run(START, steps);
            && Cached(w.db.customers[c], kind) + Total(w.flight, DueTo(c, kind)) == SumOf(Own(w.db, c), kind)
            && w.db.customers[c].balance == w.db.customers[c].totalCredit - w.db.customers[c].totalPaid
  {
    hide Total, SumOf, Own, Run, Drift, ExclusiveRun;
    RunKeepsWellFormed(steps);
    ExclusiveRunNeverDrifts(steps, c, kind);
    GapIsDrift(steps, c, kind);
  }

  /** And when every operation has posted, the caches are exact. */
  lemma ExclusiveRunSettlesExact(steps: seq<Step>)
    requires ExclusiveRun(START, steps)
    requires forall op :: op in Run(START, steps).flight ==> !Run(START, steps).flight[op].IncrementDue?
    ensures Exact(Run(START, steps).db)
  {
    hide ExactFor, Run, Drift, ExclusiveRun;
    forall c | c in Run(START, steps).db.customers ensures ExactFor(Run(START, steps).db, c) {
      ExclusiveRunNeverDrifts(steps, c, Credit);
      ExclusiveRunNeverDrifts(steps, c, Payment);
      ExactIffNoDrift(steps, c);
    }
  }

  // ---- Without the guard ------------------------------------------------------------------------------------

  /** Two edits of one transaction that overlap: both read the amount, then both write. */
  function OverlappingEdits(tid: Id, merchant: string, a: real, b: real): seq<Step> {
    [BeginEdit(0, tid, merchant, a, ""), BeginEdit(1, tid, merchant, b, ""),
     SetAmount(0), SetAmount(1), Increment(0), Increment(1)]
  }

  lemma RunStep(w: World, steps: seq<Step>, step: Step)
    ensures Run(w, steps + [step]) == Apply(Run(w, steps), step)
  {
  }

  /** Overlapping edits leave the cached total off by the first edit's correction. */
  lemma OverlappingEditsDrift(w: World, tid: Id, merchant: string, a: real, b: real)
    requires w.flight == map[] && IsTxnOf(w.db, tid, merchant) && w.db.txns[tid].customer in w.db.customers
    requires ExactFor(w.db, w.db.txns[tid].customer)
    ensures var s' := Run(w, OverlappingEdits(tid, merchant, a, b)).db;
            var t := w.db.txns[tid];
            && t.customer in s'.customers
            && Cached(s'.customers[t.customer], t.kind) == SumOf(Own(s', t.customer), t.kind) + (a - t.amount)
  {
    hide SumOf, Own, Run;
    var t := w.db.txns[tid];
    var c := t.customer;
    var q := OverlappingEdits(tid, merchant, a, b);
    var w4 := BothWritten(w, tid, merchant, a, b);
    RunStep(w, q[..4], q[4]);
    RunStep(w, q[..4] + [q[4]], q[5]);
    assert q == q[..4] + [q[4]] + [q[5]];
    OwnReads(Run(w, q).db, w4.db, c);
  }

  lemma BothWritten(w: World, tid: Id, merchant: string, a: real, b: real) returns (w4: World)
    requires w.flight == map[] && IsTxnOf(w.db, tid, merchant)
    ensures var t := w.db.txns[tid];
            && w4 == Run(w, OverlappingEdits(tid, merchant, a, b)[..4])
            && w4.db.customers == w.db.customers
            && w4.flight == map[0 := IncrementDue(t.customer, t.kind, a - t.amount),
                                1 := IncrementDue(t.customer, t.kind, b - t.amount)]
            && SumOf(Own(w4.db, t.customer), t.kind) == SumOf(Own(w.db, t.customer), t.kind) + b - t.amount
  {
    hide SumOf, Own;
    var t := w.db.txns[tid];
    var q := OverlappingEdits(tid, merchant, a, b);
    RunStep(w, [], q[0]);
    RunStep(w, [q[0]], q[1]);
    RunStep(w, [q[0]] + [q[1]], q[2]);
    RunStep(w, [q[0]] + [q[1]] + [q[2]], q[3]);
    assert q[..4] == [q[0]] + [q[1]] + [q[2]] + [q[3]];
    w4 := Run(w, q[..4]);
    var w3 := Run(w, [q[0]] + [q[1]] + [q[2]]);
    SumAfterAmount(w.db, tid, a, "", t.customer, t.kind);
    SumAfterAmount(w3.db, tid, b, "", t.customer, t.kind);
  }

  lemma {:induction false} RunOn(w: World, first: seq<Step>, next: seq<Step>)
    ensures Run(w, first + next) == Run(Run(w, first), next)
  {
    hide Apply;
    if next == [] {
      assert first + next == first;
    } else {
      var n := |next| - 1;
      RunOn(w, first, next[..n]);
      RunStep(w, first + next[..n], next[n]);
      assert first + next == first + next[..n] + [next[n]];
    }
  }

  /** A customer with one credit of 100, recorded without interference. */
  const ONE_CREDIT: seq<Step> :=
    [BeginAddCustomer(0, "m", "Ramesh", "1", ""), InsertCustomer(0),
     BeginAdd(0, "m", 0, "credit", 100.0, ""), Insert(0, 0), Increment(0), PutScore(0, 38, HighRisk)]

  /** From the empty database: correcting one credit to 150 and to 200 at once leaves
      totals that do not agree with the collection. */
  lemma LostUpdate()
    ensures !Exact(Run(START, ONE_CREDIT + OverlappingEdits(0, "m", 150.0, 200.0)).db)
  {
    hide SumOf, Own;
    var w := OneCredit();
    RunOn(START, ONE_CREDIT, OverlappingEdits(0, "m", 150.0, 200.0));
    OverlappingEditsDrift(w, 0, "m", 150.0, 200.0);
    var s' := Run(w, OverlappingEdits(0, "m", 150.0, 200.0)).db;
    assert !ExactFor(s', 0);
  }

  lemma OneCustomer()
    ensures Run(START, ONE_CREDIT[..2])
         == World(State(map[0 := NewCustomer("m", "Ramesh", "1", "")], map[], 1, 0), map[])
  {
    var q := ONE_CREDIT;
    assert q[..2] == [q[0], q[1]];
    CustomerAdditionIsItsSteps(START, 0, "m", "Ramesh", "1", "");
  }

  lemma OneCredit() returns (w: World)
    ensures w == Run(START, ONE_CREDIT) && w.flight == map[]
    ensures IsTxnOf(w.db, 0, "m") && w.db.txns[0].customer == 0
    ensures w.db.txns[0].kind == Credit && w.db.txns[0].amount == 100.0
    ensures 0 in w.db.customers && ExactFor(w.db, 0)
  {
    hide Apply, ExactFor;
    OneCreditRecorded();
    w := Run(START, ONE_CREDIT);
    NoEditsExclusive(START, ONE_CREDIT);
    ExclusiveRunSettlesExact(ONE_CREDIT);
  }

  lemma OneCreditRecorded()
    ensures var w := Run(START, ONE_CREDIT);
            w.flight == map[] && w.db.txns == map[0 := Txn("m", 0, "Ramesh", Credit, 100.0, "", 0, false)]
            && w.db.customers.Keys == {0}
  {
    hide Run;
    var q := ONE_CREDIT;
    OneCustomer();
    RunOn(START, q[..2], q[2..]);
    assert q[2..] == [q[2], q[3], q[4], q[5]] && q == q[..2] + q[2..];
    FourSteps(Run(START, q[..2]), q[2], q[3], q[4], q[5]);
  }

  lemma {:induction false} NoEditsExclusive(w: World, steps: seq<Step>)
    requires forall i :: 0 <= i < |steps| ==> !steps[i].BeginEdit? && !steps[i].BeginDelete?
    ensures ExclusiveRun(w, steps)
  {
    if steps != [] {
      NoEditsExclusive(w, steps[..|steps| - 1]);
    }
  }

  // ---- Orphans --------------------------------------------------------------------------------------------

  /** The transaction's customer exists, or is being deleted together with it. */
  ghost predicate Anchored(w: World, t: Txn) {
    || IsCustomerOf(w.db, t.customer, t.merchant)
    || exists op :: op in w.flight && w.flight[op] == CascadeDue(t.customer)
  }

  ghost predicate AllAnchored(w: World) {
    forall t :: t in w.db.txns ==> Anchored(w, w.db.txns[t])
  }

  /** The step inserts a transaction for a customer that is gone for good. */
  ghost predicate Orphans(w: World, step: Step) {
    && step.Insert? && step.op in w.flight && w.flight[step.op].InsertDue?
    && w.flight[step.op].cid !in w.db.customers
    && forall op :: op in w.flight ==> w.flight[op] != CascadeDue(w.flight[step.op].cid)
  }

  lemma TxnsKeepTheirCustomer(w: World, step: Step, t: Id)
    requires FreshIds(w.db) && t in w.db.txns && t in Apply(w, step).db.txns
    ensures Apply(w, step).db.txns[t].customer == w.db.txns[t].customer
    ensures Apply(w, step).db.txns[t].merchant == w.db.txns[t].merchant
  {
    hide Own;
  }

  /** A customer keeps its merchant and phone until that merchant asks for its deletion. */
  lemma CustomersStayWhoTheyAre(w: World, step: Step, c: Id)
    requires FreshIds(w.db) && c in w.db.customers
    ensures c in Apply(w, step).db.customers ==>
              && Apply(w, step).db.customers[c].merchant == w.db.customers[c].merchant
              && Apply(w, step).db.customers[c].phone == w.db.customers[c].phone
    ensures c !in Apply(w, step).db.customers ==>
              && step.BeginDeleteCustomer? && step.cid == c && step.merchant == w.db.customers[c].merchant
              && step.op in Apply(w, step).flight && Apply(w, step).flight[step.op] == CascadeDue(c)
  {
  }

  lemma CascadesStayDue(w: World, step: Step, op: nat, c: Id)
    requires op in w.flight && w.flight[op] == CascadeDue(c)
    ensures (op in Apply(w, step).flight && Apply(w, step).flight[op] == CascadeDue(c))
         || (forall t :: t in Apply(w, step).db.txns ==> Apply(w, step).db.txns[t].customer != c)
  {
  }

  lemma StepKeepsAnchor(w: World, step: Step, t: Id)
    requires FreshIds(w.db) && AllAnchored(w)
    requires t in w.db.txns && t in Apply(w, step).db.txns
    ensures Anchored(Apply(w, step), Apply(w, step).db.txns[t])
  {
    hide Apply;
    var c := w.db.txns[t].customer;
    TxnsKeepTheirCustomer(w, step, t);
    if IsCustomerOf(w.db, c, w.db.txns[t].merchant) {
      CustomersStayWhoTheyAre(w, step, c);
    } else {
      var op :| op in w.flight && w.flight[op] == CascadeDue(c);
      CascadesStayDue(w, step, op, c);
    }
  }

  /** A step leaves no transaction behind without its customer, exactly unless it inserts
      one for a customer already deleted. */
  lemma LinksBreakOnlyByOrphans(w: World, step: Step)
    requires WellFormed(w) && AllAnchored(w)
    ensures AllAnchored(Apply(w, step)) <==> !Orphans(w, step)
  {
    hide Own, Anchored;
    var w' := Apply(w, step);
    forall t | t in w.db.txns && t in w'.db.txns ensures Anchored(w', w'.db.txns[t]) {
      StepKeepsAnchor(w, step, t);
    }
    if step.Insert? && step.op in w.flight && w.flight[step.op].InsertDue? {
      InsertAnchors(w, step);
    }
  }

  lemma InsertAnchors(w: World, step: Step)
    requires WellFormed(w) && step.Insert? && step.op in w.flight && w.flight[step.op].InsertDue?
    ensures w.db.nextTxn in Apply(w, step).db.txns
    ensures Anchored(Apply(w, step), Apply(w, step).db.txns[w.db.nextTxn]) <==> !Orphans(w, step)
  {
    var w' := Apply(w, step);
    assert StageOk(w.db, w.flight[step.op]);
    assert forall op :: op in w.flight && op != step.op ==> w'.flight[op] == w.flight[op];
  }

  ghost predicate NoOrphans(w: World, steps: seq<Step>) {
    steps == [] || (
      var n := |steps| - 1;
      NoOrphans(w, steps[..n]) && !Orphans(Run(w, steps[..n]), steps[n]))
  }

  /** When no operation is in flight any more, every transaction has its customer. */
  lemma {:induction false} RunStaysLinked(steps: seq<Step>)
    requires NoOrphans(START, steps)
    ensures AllAnchored(Run(START, steps))
    ensures Run(START, steps).flight == map[] ==> Linked(Run(START, steps).db)
  {
    hide Apply, Orphans;
    if steps != [] {
      var n := |steps| - 1;
      RunStaysLinked(steps[..n]);
      RunKeepsWellFormed(steps[..n]);
      LinksBreakOnlyByOrphans(Run(START, steps[..n]), steps[n]);
    }
  }

  /** A deletion that runs between the lookup and the insert of an addition. */
  function DeletionDuringAdd(merchant: string, c: Id, txnType: string, amount: real, at: int): seq<Step> {
    [BeginAdd(0, merchant, c, txnType, amount, ""), BeginDeleteCustomer(1, c, merchant), Cascade(1),
     Insert(0, at), Increment(0), PutScore(0, 100, LowRisk)]
  }

  /** Such a deletion leaves a transaction without a customer, and nothing in flight to repair it. */
  lemma DeletionDuringAddOrphans(w: World, merchant: string, c: Id, txnType: string, amount: real, at: int)
    requires w.flight == map[] && AddRefusal(w.db, merchant, c, txnType, amount).Done?
    ensures var w' := Run(w, DeletionDuringAdd(merchant, c, txnType, amount, at));
            w'.flight == map[] && w.db.nextTxn in w'.db.txns && !Linked(w'.db)
  {
    hide Own, Run;
    var q := DeletionDuringAdd(merchant, c, txnType, amount, at);
    RunStep(w, q[..4], q[4]);
    RunStep(w, q[..4] + [q[4]], q[5]);
    assert q == q[..4] + [q[4]] + [q[5]];
    InsertedTooLate(w, merchant, c, txnType, amount, at);
  }

  lemma InsertedTooLate(w: World, merchant: string, c: Id, txnType: string, amount: real, at: int)
    requires w.flight == map[] && AddRefusal(w.db, merchant, c, txnType, amount).Done?
    ensures var w4 := Run(w, DeletionDuringAdd(merchant, c, txnType, amount, at)[..4]);
            && w4.flight == map[0 := IncrementDue(c, KindOf(txnType), amount)]
            && c !in w4.db.customers && w.db.nextTxn in w4.db.txns && w4.db.txns[w.db.nextTxn].customer == c
  {
    hide Own, Run;
    var q := DeletionDuringAdd(merchant, c, txnType, amount, at);
    assert q[..4] == [q[0], q[1], q[2], q[3]];
    FourSteps(w, q[0], q[1], q[2], q[3]);
  }

  // ---- Phones -----------------------------------------------------------------------------------------------

  /** The step inserts a customer whose phone its merchant holds by now. */
  predicate Clashes(w: World, step: Step) {
    && step.InsertCustomer? && step.op in w.flight && w.flight[step.op].CustomerDue?
    && PhoneTaken(w.db, w.flight[step.op].merchant, w.flight[step.op].phone)
  }

  /** Phones stay unique per merchant, exactly unless a step inserts one already held. */
  lemma PhonesBreakOnlyByClashes(w: World, step: Step)
    requires FreshIds(w.db) && UniquePhones(w.db)
    ensures UniquePhones(Apply(w, step).db) <==> !Clashes(w, step)
  {
    hide Own;
    if Clashes(w, step) {
      var s', id, d := Apply(w, step).db, w.db.nextCustomer, w.flight[step.op];
      var k :| k in w.db.customers && w.db.customers[k].merchant == d.merchant && w.db.customers[k].phone == d.phone;
      assert s'.customers[k].phone == s'.customers[id].phone;
    }
  }

  /** Both operations are about to insert a customer of the same merchant and phone. */
  predicate SameTarget(d: Stage, merchant: string, phone: string) {
    d.CustomerDue? && d.merchant == merchant && d.phone == phone
  }

  /** The guard: no addition of a customer starts while another one for the same merchant
      and phone has looked it up and not inserted it yet. */
  predicate AlonePerPhone(w: World, step: Step) {
    step.BeginAddCustomer? ==> forall o :: o in w.flight ==> !SameTarget(w.flight[o], step.merchant, step.phone)
  }

  predicate AlonePerPhoneRun(w: World, steps: seq<Step>) {
    steps == [] || (
      var n := |steps| - 1;
      AlonePerPhoneRun(w, steps[..n]) && AlonePerPhone(Run(w, steps[..n]), steps[n]))
  }

  /** Every phone about to be inserted is still free, and claimed by one operation only. */
  ghost predicate PhonesFree(w: World) {
    forall o :: o in w.flight && w.flight[o].CustomerDue? ==>
      var d := w.flight[o];
      && !PhoneTaken(w.db, d.merchant, d.phone)
      && forall p :: p in w.flight && SameTarget(w.flight[p], d.merchant, d.phone) ==> p == o
  }

  lemma PhoneTakenOnlyByInsert(w: World, step: Step, merchant: string, phone: string)
    requires FreshIds(w.db)
    requires PhoneTaken(Apply(w, step).db, merchant, phone) && !PhoneTaken(w.db, merchant, phone)
    ensures step.InsertCustomer? && step.op in w.flight && SameTarget(w.flight[step.op], merchant, phone)
  {
    var s' := Apply(w, step).db;
    var k :| k in s'.customers && s'.customers[k].merchant == merchant && s'.customers[k].phone == phone;
    CustomersComeOnce(w, step, k);
    if k in w.db.customers {
      hide Apply;
      CustomersStayWhoTheyAre(w, step, k);
      assert false;
    }
  }

  lemma StepKeepsPhonesFree(w: World, step: Step)
    requires FreshIds(w.db) && PhonesFree(w) && AlonePerPhone(w, step)
    ensures PhonesFree(Apply(w, step)) && !Clashes(w, step)
  {
    hide Own, PhoneTaken;
    var w' := Apply(w, step);
    forall o | o in w'.flight && w'.flight[o].CustomerDue?
      ensures var d := w'.flight[o];
              && !PhoneTaken(w'.db, d.merchant, d.phone)
              && forall p :: p in w'.flight && SameTarget(w'.flight[p], d.merchant, d.phone) ==> p == o
    {
      var d := w'.flight[o];
      if PhoneTaken(w'.db, d.merchant, d.phone) && !PhoneTaken(w.db, d.merchant, d.phone) {
        PhoneTakenOnlyByInsert(w, step, d.merchant, d.phone);
      }
    }
  }

  /** Under that guard phones are unique per merchant in every state of every interleaving. */
  lemma {:induction false} RunKeepsPhonesUnique(steps: seq<Step>)
    requires AlonePerPhoneRun(START, steps)
    ensures UniquePhones(Run(START, steps).db) && PhonesFree(Run(START, steps))
  {
    hide Apply, AlonePerPhone;
    if steps != [] {
      var n := |steps| - 1;
      var w := Run(START, steps[..n]);
      RunKeepsPhonesUnique(steps[..n]);
      RunKeepsWellFormed(steps[..n]);
      StepKeepsPhonesFree(w, steps[n]);
      PhonesBreakOnlyByClashes(w, steps[n]);
    }
  }

  /** Two additions of the same phone that overlap: both look it up, then both insert. */
  function OverlappingAdditions(merchant: string, phone: string, name: string, name': string): seq<Step> {
    [BeginAddCustomer(0, merchant, name, phone, ""), BeginAddCustomer(1, merchant, name', phone, ""),
     InsertCustomer(0), InsertCustomer(1)]
  }

  /** Such additions both succeed, from any state in which the phone is free. */
  lemma OverlappingAdditionsSharePhone(w: World, merchant: string, phone: string, name: string, name': string)
    requires w.flight == map[] && !PhoneTaken(w.db, merchant, phone)
    ensures var w' := Run(w, OverlappingAdditions(merchant, phone, name, name'));
            w'.flight == map[] && !UniquePhones(w'.db)
  {
    hide Run, PhoneTaken;
    var q := OverlappingAdditions(merchant, phone, name, name');
    FourSteps(w, q[0], q[1], q[2], q[3]);
    var s', id := Run(w, q).db, w.db.nextCustomer;
    assert s'.customers[id].phone == s'.customers[id + 1].phone;
  }

  // ---- Complete operations are runs of their steps -------------------------------------------------------------

  lemma TwoSteps(w: World, a: Step, b: Step)
    ensures Run(w, [a, b]) == Apply(Apply(w, a), b)
  {
    hide Apply;
    RunStep(w, [], a);
    RunStep(w, [a], b);
    assert [] + [a] == [a] && [a, b] == [a] + [b];
  }

  lemma FourSteps(w: World, a: Step, b: Step, c: Step, d: Step)
    ensures Run(w, [a, b, c, d]) == Apply(Apply(Apply(Apply(w, a), b), c), d)
  {
    hide Apply;
    TwoSteps(w, a, b);
    RunStep(w, [a, b], c);
    RunStep(w, [a, b] + [c], d);
    assert [a, b, c, d] == [a, b] + [c] + [d];
  }

  /** A rescoring on the current state is the last step of an operation. */
  lemma ScoreLands(m: State, f: map<nat, Stage>, op: nat, cid: Id, t: int)
    requires op !in f
    ensures var (score, category) := Verdict(m, cid, t);
            Apply(World(m, f[op := ScoreDue(cid)]), PutScore(op, score, category)) == World(Rescored(m, cid, t), f)
  {
  }

  /** Adding a customer is one interleaving of its own steps; so is being refused. */
  lemma CustomerAdditionIsItsSteps(w: World, op: nat, merchant: string, name: string, phone: string, address: string)
    requires op !in w.flight
    ensures Run(w, [BeginAddCustomer(op, merchant, name, phone, address), InsertCustomer(op)])
         == World(Added(w.db, merchant, name, phone, address), w.flight)
  {
    hide PhoneTaken, Run;
    var a, b := BeginAddCustomer(op, merchant, name, phone, address), InsertCustomer(op);
    TwoSteps(w, a, b);
    assert w.flight[op := CustomerDue(merchant, name, phone, address)] - {op} == w.flight;
  }

  lemma VerdictSettles(m: State, cid: Id, t: int)
    ensures Verdict(Rescored(m, cid, t), cid, t) == Verdict(m, cid, t)
  {
    hide Own, Score;
    OwnReads(Rescored(m, cid, t), m, cid);
  }

  /** The sequential addition of a transaction, done or refused, is one interleaving of its
      own steps, the last of which writes the verdict on the state it leaves. */
  lemma AdditionIsItsSteps(w: World, op: nat, merchant: string, cid: Id, txnType: string, amount: real,
                           note: string, at: int, scoredAt: int, score: int, category: Category)
    requires op !in w.flight
    requires (score, category)
          == Verdict(TxnAdded(w.db, merchant, cid, txnType, amount, note, at, scoredAt), cid, scoredAt)
    ensures Run(w, [BeginAdd(op, merchant, cid, txnType, amount, note), Insert(op, at), Increment(op),
                    PutScore(op, score, category)])
         == World(TxnAdded(w.db, merchant, cid, txnType, amount, note, at, scoredAt), w.flight)
  {
    hide Score, Run, Own, Verdict, Rescored;
    var a, b, c := BeginAdd(op, merchant, cid, txnType, amount, note), Insert(op, at), Increment(op);
    FourSteps(w, a, b, c, PutScore(op, score, category));
    if AddRefusal(w.db, merchant, cid, txnType, amount).Done? {
      var m := Recorded(w.db, merchant, cid, KindOf(txnType), amount, note, at);
      VerdictSettles(m, cid, scoredAt);
      assert Apply(Apply(Apply(w, a), b), c) == World(m, w.flight[op := ScoreDue(cid)]);
      ScoreLands(m, w.flight, op, cid, scoredAt);
    }
  }

  /** So is the sequential edit of a transaction of customer cid. */
  lemma EditIsItsSteps(w: World, op: nat, tid: Id, merchant: string, amount: real, note: string, scoredAt: int,
                       cid: Id, score: int, category: Category)
    requires op !in w.flight && (tid in w.db.txns ==> w.db.txns[tid].customer == cid)
    requires (score, category) == Verdict(TxnEdited(w.db, tid, merchant, amount, note, scoredAt), cid, scoredAt)
    ensures Run(w, [BeginEdit(op, tid, merchant, amount, note), SetAmount(op), Increment(op),
                    PutScore(op, score, category)])
         == World(TxnEdited(w.db, tid, merchant, amount, note, scoredAt), w.flight)
  {
    hide Score, Run, Own, Verdict, Rescored;
    var a, b, c := BeginEdit(op, tid, merchant, amount, note), SetAmount(op), Increment(op);
    FourSteps(w, a, b, c, PutScore(op, score, category));
    if IsTxnOf(w.db, tid, merchant) {
      var m := Corrected(w.db, tid, amount, note);
      VerdictSettles(m, cid, scoredAt);
      EditSteps(w, op, tid, merchant, amount, note);
      ScoreLands(m, w.flight, op, cid, scoredAt);
    }
  }

  lemma EditSteps(w: World, op: nat, tid: Id, merchant: string, amount: real, note: string)
    requires op !in w.flight && IsTxnOf(w.db, tid, merchant)
    ensures Apply(Apply(Apply(w, BeginEdit(op, tid, merchant, amount, note)), SetAmount(op)), Increment(op))
         == World(Corrected(w.db, tid, amount, note), w.flight[op := ScoreDue(w.db.txns[tid].customer)])
  {
    var t, f := w.db.txns[tid], w.flight;
    var w1 := Apply(w, BeginEdit(op, tid, merchant, amount, note));
    assert w1 == World(w.db, f[op := AmountDue(tid, t.customer, t.kind, t.amount, amount, note)]);
    var w2 := Apply(w1, SetAmount(op));
    assert w2.db == WithAmount(w.db, tid, amount, note);
    assert w2.flight == f[op := IncrementDue(t.customer, t.kind, amount - t.amount)];
  }

  /** And the sequential deletion. */
  lemma DeletionIsItsSteps(w: World, op: nat, tid: Id, merchant: string, scoredAt: int,
                           cid: Id, score: int, category: Category)
    requires op !in w.flight && (tid in w.db.txns ==> w.db.txns[tid].customer == cid)
    requires (score, category) == Verdict(TxnDeleted(w.db, tid, merchant, scoredAt), cid, scoredAt)
    ensures Run(w, [BeginDelete(op, tid, merchant), Remove(op), Increment(op), PutScore(op, score, category)])
         == World(TxnDeleted(w.db, tid, merchant, scoredAt), w.flight)
  {
    hide Score, Run, Own, Verdict, Rescored;
    var a, b, c := BeginDelete(op, tid, merchant), Remove(op), Increment(op);
    FourSteps(w, a, b, c, PutScore(op, score, category));
    if IsTxnOf(w.db, tid, merchant) {
      var m := Reversed(w.db, tid);
      VerdictSettles(m, cid, scoredAt);
      assert Apply(Apply(Apply(w, a), b), c) == World(m, w.flight[op := ScoreDue(cid)]);
      ScoreLands(m, w.flight, op, cid, scoredAt);
    }
  }

  /** And the deletion of a customer with its cascade. */
  lemma CustomerDeletionIsItsSteps(w: World, op: nat, cid: Id, merchant: string)
    requires op !in w.flight
    ensures Run(w, [BeginDeleteCustomer(op, cid, merchant), Cascade(op)])
         == World(Cascaded(w.db, cid, merchant), w.flight)
  {
    hide Own, Run;
    var a, b := BeginDeleteCustomer(op, cid, merchant), Cascade(op);
    TwoSteps(w, a, b);
    assert w.flight[op := CascadeDue(cid)] - {op} == w.flight;
  }

  /** And the recalculation of a score. */
  lemma RescoringIsItsSteps(w: World, op: nat, cid: Id, scoredAt: int, score: int, category: Category)
    requires op !in w.flight && (score, category) == Verdict(w.db, cid, scoredAt)
    ensures Run(w, [BeginRescore(op, cid), PutScore(op, score, category)])
         == World(Rescored(w.db, cid, scoredAt), w.flight)
  {
    hide Score, Run, Own, Verdict, Rescored;
    TwoSteps(w, BeginRescore(op, cid), PutScore(op, score, category));
    ScoreLands(w.db, w.flight, op, cid, scoredAt);
  }

  // ---- Merchants do not see each other ---------------------------------------------------------------------

  /** While the customer of a transaction exists, both belong to the same merchant. */
  ghost predicate SameOwner(s: State) {
    forall t :: t in s.txns && s.txns[t].customer in s.customers ==>
      s.customers[s.txns[t].customer].merchant == s.txns[t].merchant
  }

  lemma StepKeepsOwners(w: World, step: Step)
    requires WellFormed(w) && SameOwner(w.db)
    ensures SameOwner(Apply(w, step).db)
  {
    hide Apply, WellFormed;
    var s, s' := w.db, Apply(w, step).db;
    forall t | t in s'.txns && s'.txns[t].customer in s'.customers
      ensures s'.customers[s'.txns[t].customer].merchant == s'.txns[t].merchant
    {
      OwnerKept(w, step, t);
    }
  }

  lemma OwnerKept(w: World, step: Step, t: Id)
    requires WellFormed(w) && SameOwner(w.db)
    requires t in Apply(w, step).db.txns && Apply(w, step).db.txns[t].customer in Apply(w, step).db.customers
    ensures var s' := Apply(w, step).db; s'.customers[s'.txns[t].customer].merchant == s'.txns[t].merchant
  {
    var c := Apply(w, step).db.txns[t].customer;
    if t in w.db.txns {
      TxnsKeepTheirCustomer(w, step, t);
      CustomersComeOnce(w, step, c);
      if c in w.db.customers { CustomersStayWhoTheyAre(w, step, c); }
    } else {
      assert StageOk(w.db, w.flight[step.op]);
    }
  }

  /** Nothing the operation d will still do concerns the merchant. */
  ghost predicate Foreign(s: State, d: Stage, merchant: string) {
    && (d.CustomerDue? || d.InsertDue? ==> d.merchant != merchant)
    && (d.AmountDue? || d.RemovalDue? ==> !IsTxnOf(s, d.tid, merchant))
    && (!d.CustomerDue? && !d.CascadeDue? ==> !IsCustomerOf(s, d.cid, merchant))
    && (d.CascadeDue? ==> forall t :: t in s.txns && s.txns[t].customer == d.cid ==> s.txns[t].merchant != merchant)
  }

  ghost predicate AllForeign(w: World, merchant: string) {
    forall op :: op in w.flight ==> Foreign(w.db, w.flight[op], merchant)
  }

  /** The step starts nothing in the merchant's name, and no rescoring of its customers. */
  predicate ByOthers(s: State, step: Step, merchant: string) {
    match step
    case BeginAddCustomer(op, m, name, phone, address) => m != merchant
    case BeginAdd(op, m, cid, txnType, amount, note) => m != merchant
    case BeginEdit(op, tid, m, amount, note) => m != merchant
    case BeginDelete(op, tid, m) => m != merchant
    case BeginRescore(op, cid) => !IsCustomerOf(s, cid, merchant)
    case BeginDeleteCustomer(op, cid, m) => m != merchant
    case _ => true
  }

  lemma CustomerSpared(w: World, step: Step, other: string, c: Id)
    requires AllForeign(w, other) && ByOthers(w.db, step, other) && FreshIds(w.db)
    requires IsCustomerOf(w.db, c, other)
    ensures c in Apply(w, step).db.customers && Apply(w, step).db.customers[c] == w.db.customers[c]
  {
    hide Own, AddRefusal, IsTxnOf, PhoneTaken;
  }

  lemma NewcomerForeign(w: World, step: Step, other: string, c: Id)
    requires AllForeign(w, other)
    requires c in Apply(w, step).db.customers && c !in w.db.customers
    ensures Apply(w, step).db.customers[c].merchant != other
  {
    hide Own, AddRefusal, IsTxnOf, PhoneTaken;
    CustomersComeOnce(w, step, c);
  }

  lemma StepSparesCustomers(w: World, step: Step, other: string)
    requires AllForeign(w, other) && ByOthers(w.db, step, other) && FreshIds(w.db)
    ensures Restrict(Apply(w, step).db.customers, CustomerOf(other)) == Restrict(w.db.customers, CustomerOf(other))
  {
    hide Apply, AllForeign, ByOthers, FreshIds;
    var s' := Apply(w, step).db;
    forall c | c in w.db.customers && CustomerOf(other)(w.db.customers[c])
      ensures c in s'.customers && s'.customers[c] == w.db.customers[c]
    {
      CustomerSpared(w, step, other, c);
    }
    forall c | c in s'.customers && CustomerOf(other)(s'.customers[c])
      ensures c in w.db.customers && CustomerOf(other)(w.db.customers[c])
    {
      if c in w.db.customers {
        CustomersStayWhoTheyAre(w, step, c);
      } else {
        NewcomerForeign(w, step, other, c);
      }
    }
    SameRestriction(w.db.customers, s'.customers, CustomerOf(other));
  }

  lemma TxnSpared(w: World, step: Step, other: string, t: Id)
    requires AllForeign(w, other) && FreshIds(w.db) && IsTxnOf(w.db, t, other)
    ensures t in Apply(w, step).db.txns && Apply(w, step).db.txns[t] == w.db.txns[t]
  {
    hide AddRefusal, PhoneTaken;
  }

  lemma NewTxnForeign(w: World, step: Step, other: string, t: Id)
    requires AllForeign(w, other)
    requires t in Apply(w, step).db.txns && t !in w.db.txns
    ensures Apply(w, step).db.txns[t].merchant != other
  {
    hide Own, AddRefusal, PhoneTaken;
  }

  lemma StepSparesTxns(w: World, step: Step, other: string)
    requires AllForeign(w, other) && FreshIds(w.db)
    ensures Restrict(Apply(w, step).db.txns, OfMerchant(other)) == Restrict(w.db.txns, OfMerchant(other))
  {
    hide Apply, AllForeign, FreshIds;
    var s' := Apply(w, step).db;
    forall t | t in w.db.txns && OfMerchant(other)(w.db.txns[t]) ensures t in s'.txns && s'.txns[t] == w.db.txns[t] {
      TxnSpared(w, step, other, t);
    }
    forall t | t in s'.txns && OfMerchant(other)(s'.txns[t])
      ensures t in w.db.txns && OfMerchant(other)(w.db.txns[t])
    {
      if t in w.db.txns {
        TxnsKeepTheirCustomer(w, step, t);
      } else {
        NewTxnForeign(w, step, other, t);
      }
    }
    SameRestriction(w.db.txns, s'.txns, OfMerchant(other));
  }

  lemma ForeignStays(s: State, s': State, d: Stage, other: string)
    requires SameFor(s, s', other) && Foreign(s, d, other)
    ensures Foreign(s', d, other)
  {
    assert forall k :: IsCustomerOf(s, k, other) <==> k in Restrict(s.customers, CustomerOf(other));
    assert forall k :: IsCustomerOf(s', k, other) <==> k in Restrict(s'.customers, CustomerOf(other));
    assert forall k :: IsTxnOf(s, k, other) <==> k in Restrict(s.txns, OfMerchant(other));
    forall k | IsTxnOf(s', k, other) ensures IsTxnOf(s, k, other) && s.txns[k] == s'.txns[k] {
      assert k in Restrict(s'.txns, OfMerchant(other));
    }
  }

  lemma NewStageForeign(w: World, step: Step, other: string, o: nat)
    requires WellFormed(w) && SameOwner(w.db) && AllForeign(w, other) && ByOthers(w.db, step, other)
    requires o in Apply(w, step).flight
    ensures Foreign(w.db, Apply(w, step).flight[o], other)
  {
    hide Own, WellFormed;
  }

  lemma StepSparesOthers(w: World, step: Step, other: string)
    requires WellFormed(w) && SameOwner(w.db) && AllForeign(w, other) && ByOthers(w.db, step, other)
    ensures SameFor(w.db, Apply(w, step).db, other) && AllForeign(Apply(w, step), other)
  {
    hide Apply, ByOthers, SameOwner, Foreign, FreshIds;
    StepSparesCustomers(w, step, other);
    StepSparesTxns(w, step, other);
    var w' := Apply(w, step);
    forall o | o in w'.flight ensures Foreign(w'.db, w'.flight[o], other) {
      NewStageForeign(w, step, other, o);
      ForeignStays(w.db, w'.db, w'.flight[o], other);
    }
  }

  lemma {:induction false} RunKeepsOwners(steps: seq<Step>)
    ensures SameOwner(Run(START, steps).db)
  {
    hide Apply;
    if steps != [] {
      RunKeepsOwners(steps[..|steps| - 1]);
      RunKeepsWellFormed(steps[..|steps| - 1]);
      StepKeepsOwners(Run(START, steps[..|steps| - 1]), steps[|steps| - 1]);
    }
  }

  predicate ByOthersRun(w: World, steps: seq<Step>, merchant: string) {
    steps == [] || (
      var n := |steps| - 1;
      ByOthersRun(w, steps[..n], merchant) && ByOthers(Run(w, steps[..n]).db, steps[n], merchant))
  }

  /** In every interleaving: once nothing in flight concerns a merchant, requests of other
      merchants leave its customers and transactions as they are, however they overlap. */
  lemma {:induction false} RunSparesOthers(first: seq<Step>, next: seq<Step>, other: string)
    requires AllForeign(Run(START, first), other)
    requires ByOthersRun(Run(START, first), next, other)
    ensures SameFor(Run(START, first).db, Run(START, first + next).db, other)
    ensures AllForeign(Run(START, first + next), other)
  {
    hide Apply, ByOthers, Foreign;
    if next == [] {
      assert first + next == first;
    } else {
      var n := |next| - 1;
      RunSparesOthers(first, next[..n], other);
      RunOn(START, first, next[..n]);
      RunStep(START, first + next[..n], next[n]);
      assert first + next == first + next[..n] + [next[n]];
      RunKeepsWellFormed(first + next[..n]);
      RunKeepsOwners(first + next[..n]);
      StepSparesOthers(Run(START, first + next[..n]), next[n], other);
    }
  }
}
