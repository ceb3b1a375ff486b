/** The credit score: the six factors as a function of a customer's history, its
    balance and the clock, and what that function guarantees. */
module Scoring {
  import opened Collections
  import opened Records

  /** One day in the clock's milliseconds. */
  const DAY := 86_400_000

  /** Whole days in a span of time, rounded down. */
  function Days(span: int): int { span / DAY }

  function OverdueAt(now: int): Txn -> bool { (t: Txn) => Days(now - t.date) > 30 }

  ghost function NumOverdue(h: History, now: int): nat {
    |Restrict(Restrict(h, IsKind(Credit)), OverdueAt(now))|
  }

  /** The date of the newest transaction. */
  ghost function Newest(h: History): (date: int)
    requires h != map[]
    ensures exists k :: k in h && h[k].date == date
    ensures forall k :: k in h ==> h[k].date <= date
    decreases |h|
  {
    var k :| k in h;
    var rest := h - {k};
    assert forall j :: j in h ==> j == k || j in rest;
    if rest == map[] || Newest(rest) < h[k].date then h[k].date else Newest(rest)
  }

  /** Days since the last payment, if there was one. */
  datatype Idle = Never | Idle(days: int)

  ghost function IdleAt(h: History, now: int): Idle {
    var payments := Restrict(h, IsKind(Payment));
    if payments == map[] then Never else Idle(Days(now - Newest(payments)))
  }

  /** Everything the score reads off a history. */
  datatype Profile = Profile(paid: real, credit: real, payments: nat, credits: nat, overdue: nat, idle: Idle)

  ghost function ProfileOf(h: History, now: int): Profile {
    Profile(SumOf(h, Payment), SumOf(h, Credit), NumOf(h, Payment), NumOf(h, Credit),
            NumOverdue(h, now), IdleAt(h, now))
  }

  // ---- The six factors ----------------------------------------------------------

  function RatioPoints(paid: real, credit: real): int {
    if credit <= 0.0 then 30
    else if paid >= credit then 30
    else if 100.0 * paid >= 85.0 * credit then 26
    else if 100.0 * paid >= 70.0 * credit then 22
    else if 100.0 * paid >= 55.0 * credit then 17
    else if 100.0 * paid >= 40.0 * credit then 12
    else if 100.0 * paid >= 25.0 * credit then 7
    else if 100.0 * paid >= 10.0 * credit then 3
    else 0
  }

  function OverduePoints(n: nat): int {
    if n == 0 then 20 else if n == 1 then 14 else if n == 2 then 8 else if n == 3 then 3 else 0
  }

  function BalancePoints(b: real): int {
    if b <= 0.0 then 20
    else if b <= 500.0 then 18
    else if b <= 1000.0 then 16
    else if b <= 3000.0 then 13
    else if b <= 5000.0 then 10
    else if b <= 10000.0 then 7
    else if b <= 25000.0 then 4
    else if b <= 100000.0 then 2
    else 0
  }

  function FrequencyPoints(n: nat): int {
    if n >= 10 then 15 else if n >= 7 then 12 else if n >= 5 then 9 else if n >= 3 then 6 else if n >= 1 then 3 else 0
  }

  function RecencyPoints(idle: Idle): int {
    if idle.Never? then 0
    else if idle.days <= 7 then 10
    else if idle.days <= 15 then 8
    else if idle.days <= 30 then 6
    else if idle.days <= 60 then 4
    else if idle.days <= 90 then 2
    else 0
  }

  function ConsistencyPoints(payments: nat, credits: nat): int {
    if payments == 0 || credits == 0 then 0
    else if payments >= credits then 5
    else if 4 * payments >= 3 * credits then 3
    else if 2 * payments >= credits then 1
    else 0
  }

  function Points(p: Profile, balance: real): int {
    RatioPoints(p.paid, p.credit)
    + OverduePoints(p.overdue)
    + BalancePoints(balance)
    + FrequencyPoints(p.payments)
    + RecencyPoints(p.idle)
    + ConsistencyPoints(p.payments, p.credits)
  }

  ghost function Score(h: History, balance: real, now: int): int {
    if h == map[] then 100 else Points(ProfileOf(h, now), balance)
  }

  function CategoryOf(score: int): Category {
    if score >= 80 then Excellent
    else if score >= 65 then LowRisk
    else if score >= 50 then MediumRisk
    else if score >= 30 then HighRisk
    else Defaulter
  }

  // ---- Profiles and points compared ------------------------------------------------

  predicate IdleNoLonger(a: Idle, b: Idle) {
    b.Never? || (a.Idle? && a.days <= b.days)
  }

  /** The paid share of a is at least that of b. */
  predicate RatioAtLeast(paid: real, credit: real, paid': real, credit': real) {
    || credit <= 0.0
    || paid >= credit
    || (paid >= paid' && credit <= credit')
  }

  /** Every ingredient of a is at least as good as that of b. */
  predicate AtLeast(a: Profile, b: Profile) {
    && RatioAtLeast(a.paid, a.credit, b.paid, b.credit)
    && a.payments >= b.payments
    && (a.credits == b.credits || 0 < a.credits <= b.credits)
    && a.overdue <= b.overdue
    && IdleNoLonger(a.idle, b.idle)
  }

  lemma PointsMonotone(a: Profile, x: real, b: Profile, y: real)
    requires AtLeast(a, b) && x <= y
    ensures Points(a, x) >= Points(b, y)
  {
    RatioMonotone(a.paid, a.credit, b.paid, b.credit);
    assert OverduePoints(a.overdue) >= OverduePoints(b.overdue);
    assert BalancePoints(x) >= BalancePoints(y);
    assert FrequencyPoints(a.payments) >= FrequencyPoints(b.payments);
    assert RecencyPoints(a.idle) >= RecencyPoints(b.idle);
    assert ConsistencyPoints(a.payments, a.credits) >= ConsistencyPoints(b.payments, b.credits);
  }

  lemma RatioMonotone(paid: real, credit: real, paid': real, credit': real)
    requires RatioAtLeast(paid, credit, paid', credit')
    ensures RatioPoints(paid, credit) >= RatioPoints(paid', credit')
  {
  }

  // ---- How single documents move the profile -------------------------------------

  lemma OverduePut(h: History, k: Id, t: Txn, now: int)
    requires k in h ==> h[k].kind == t.kind && h[k].date == t.date
    ensures NumOverdue(h[k := t], now)
         == NumOverdue(h, now) + if k !in h && t.kind == Credit && OverdueAt(now)(t) then 1 else 0
  {
    var part := Restrict(h, IsKind(Credit));
    RestrictPut(h, IsKind(Credit), k, t);
    if t.kind == Credit {
      LatePut(part, k, t, now);
    } else {
      assert part - {k} == part;
    }
  }

  lemma LatePut(part: History, k: Id, t: Txn, now: int)
    requires k in part ==> part[k].date == t.date
    ensures |Restrict(part[k := t], OverdueAt(now))|
         == |Restrict(part, OverdueAt(now))| + if k !in part && OverdueAt(now)(t) then 1 else 0
  {
    var late := Restrict(part, OverdueAt(now));
    RestrictPut(part, OverdueAt(now), k, t);
    SizePut(late, k, t);
    if !OverdueAt(now)(t) {
      assert late - {k} == late;
    }
  }

  lemma NewestPut(h: History, k: Id, t: Txn)
    requires h != map[]
    requires k in h ==> h[k].date == t.date
    ensures Newest(h[k := t]) == if t.date > Newest(h) then t.date else Newest(h)
  {
    var h' := h[k := t];
    assert h'[k] == t;
    var j :| j in h && h[j].date == Newest(h);
    assert j in h' && h'[j].date == Newest(h);
  }

  lemma IdlePut(h: History, k: Id, t: Txn, now: int)
    requires k in h ==> h[k].kind == t.kind && h[k].date == t.date
    ensures IdleNoLonger(IdleAt(h[k := t], now), IdleAt(h, now))
    ensures t.kind == Credit || k in h ==> IdleAt(h[k := t], now) == IdleAt(h, now)
    ensures t.kind == Payment ==> IdleAt(h[k := t], now).Idle?
  {
    var part := Restrict(h, IsKind(Payment));
    RestrictPut(h, IsKind(Payment), k, t);
    if t.kind == Credit {
      assert part - {k} == part;
    } else if part != map[] {
      NewestPut(part, k, t);
    } else {
      assert k !in h;
    }
  }

  /** The profile after document k was added or had its amount corrected. */
  lemma ProfilePut(h: History, k: Id, t: Txn, now: int) returns (a: Profile, b: Profile)
    requires k in h ==> h[k].kind == t.kind && h[k].date == t.date
    ensures a == ProfileOf(h[k := t], now) && b == ProfileOf(h, now)
    ensures a.paid == b.paid - (if k in h then Share(h[k], Payment) else 0.0) + Share(t, Payment)
    ensures a.credit == b.credit - (if k in h then Share(h[k], Credit) else 0.0) + Share(t, Credit)
    ensures a.payments == b.payments + if k !in h && t.kind == Payment then 1 else 0
    ensures a.credits == b.credits + if k !in h && t.kind == Credit then 1 else 0
    ensures a.overdue == b.overdue + if k !in h && t.kind == Credit && Days(now - t.date) > 30 then 1 else 0
    ensures IdleNoLonger(a.idle, b.idle)
    ensures t.kind == Credit || k in h ==> a.idle == b.idle
  {
    hide NumOverdue, IdleAt, SumOf, NumOf;
    SumPut(h, k, t, Credit);
    SumPut(h, k, t, Payment);
    NumPut(h, k, t, Credit);
    NumPut(h, k, t, Payment);
    OverduePut(h, k, t, now);
    IdlePut(h, k, t, now);
    a, b := ProfileOf(h[k := t], now), ProfileOf(h, now);
  }

  /** What every profile of positive amounts satisfies. */
  lemma ProfileSane(h: History, now: int)
    ensures var p := ProfileOf(h, now);
            && p.overdue <= p.credits
            && (p.idle.Never? <==> p.payments == 0)
            && (p.payments == 0 && p.credits == 0 <==> h == map[])
            && (p.payments == 0 ==> p.paid == 0.0)
            && (p.credits == 0 ==> p.credit == 0.0)
            && (Positive(h) ==> p.paid >= 0.0 && p.credit >= 0.0)
            && (Positive(h) && p.payments > 0 ==> p.paid > 0.0)
            && (Positive(h) && p.credits > 0 ==> p.credit > 0.0)
  {
    SizeAtMost(Restrict(Restrict(h, IsKind(Credit)), OverdueAt(now)), Restrict(h, IsKind(Credit)));
    SomeKind(h);
    if Positive(h) {
      SumSign(h, Credit);
      SumSign(h, Payment);
    }
  }

  // ---- Range ----------------------------------------------------------------------

  /** The sum of the factors lies in 0..100 already, so clamping never changes it. */
  lemma PointsInRange(p: Profile, balance: real)
    ensures 0 <= Points(p, balance) <= 100
  {
  }

  // ---- Recording a transaction -----------------------------------------------------

  /** A payment never lowers the score at the same instant, unless it is the first
      transaction of all. */
  lemma PaymentNeverLowers(h: History, k: Id, p: Txn, balance: real, now: int)
    requires k !in h && p.kind == Payment && p.amount > 0.0
    ensures Score(h[k := p], balance - p.amount, now) >= Score(h, balance, now) <==> h != map[]
    ensures h == map[] ==> Score(h[k := p], balance - p.amount, now) <= 83
  {
    hide NumOverdue, IdleAt, SumOf, NumOf;
    var a, b := ProfilePut(h, k, p, now);
    ProfileSane(h, now);
    if h == map[] {
      FirstPaymentPoints(a, balance - p.amount);
    } else {
      PointsMonotone(a, balance - p.amount, b, balance);
    }
  }

  lemma FirstPaymentPoints(p: Profile, balance: real)
    requires p.payments == 1 && p.credits == 0
    ensures Points(p, balance) <= 83
  {
  }

  /** The one history in which a new credit c is rewarded: payments only, enough of
      them to cover c, and c less than 31 days old. */
  ghost predicate UnlocksConsistency(h: History, c: Txn, now: int) {
    && h != map[]
    && NumOf(h, Credit) == 0
    && c.amount <= SumOf(h, Payment)
    && now - c.date < 2_678_400_000
  }

  /** A credit never raises the score at the same instant, except by exactly the five
      consistency points in the one history above. */
  lemma CreditRaisesOnlyByConsistency(h: History, k: Id, c: Txn, balance: real, now: int)
    requires balance == Net(h)
    requires k !in h && c.kind == Credit && c.amount > 0.0
    ensures Score(h[k := c], balance + c.amount, now) <= Score(h, balance, now) <==> !UnlocksConsistency(h, c, now)
    ensures UnlocksConsistency(h, c, now) ==>
              Score(h[k := c], balance + c.amount, now) == Score(h, balance, now) + 5
  {
    hide NumOverdue, IdleAt, SumOf, NumOf;
    var a, b := ProfilePut(h, k, c, now);
    ProfileSane(h, now);
    if h == map[] {
      PointsInRange(a, balance + c.amount);
    } else if b.credits > 0 {
      PointsMonotone(b, balance, a, balance + c.amount);
    } else {
      FirstCreditPoints(a, b, c.amount, balance);
    }
  }

  lemma FirstCreditPoints(a: Profile, b: Profile, amount: real, balance: real)
    requires b.credits == 0 && b.payments > 0 && b.overdue == 0 && b.credit == 0.0
    requires amount > 0.0 && balance == -b.paid
    requires a.paid == b.paid && a.credit == amount && a.payments == b.payments && a.credits == 1
    requires a.overdue <= 1 && a.idle == b.idle
    ensures a.overdue == 0 && amount <= b.paid ==> Points(a, balance + amount) == Points(b, balance) + 5
    ensures a.overdue == 1 || amount > b.paid ==> Points(a, balance + amount) < Points(b, balance)
  {
  }

  // ---- Editing an amount -------------------------------------------------------------

  /** Correcting a payment upwards never lowers the score at the same instant, and
      correcting a credit upwards never raises it. */
  lemma EditMonotone(h: History, k: Id, t: Txn, balance: real, now: int)
    requires k in h
    requires t.kind == h[k].kind && t.date == h[k].date && t.amount >= h[k].amount
    ensures t.kind == Payment ==> Score(h[k := t], balance - (t.amount - h[k].amount), now) >= Score(h, balance, now)
    ensures t.kind == Credit ==> Score(h[k := t], balance + (t.amount - h[k].amount), now) <= Score(h, balance, now)
  {
    hide NumOverdue, IdleAt, SumOf, NumOf;
    var a, b := ProfilePut(h, k, t, now);
    ProfileSane(h, now);
    if t.kind == Payment {
      PointsMonotone(a, balance - (t.amount - h[k].amount), b, balance);
    } else {
      KindPresent(h, k);
      PointsMonotone(b, balance, a, balance + (t.amount - h[k].amount));
    }
  }

  // ---- Time -----------------------------------------------------------------------------

  lemma OverdueGrows(h: History, now: int, later: int)
    requires now <= later
    ensures NumOverdue(h, now) <= NumOverdue(h, later)
  {
    var part := Restrict(h, IsKind(Credit));
    SizeAtMost(Restrict(part, OverdueAt(now)), Restrict(part, OverdueAt(later)));
  }

  lemma IdleGrows(h: History, now: int, later: int)
    requires now <= later
    ensures IdleNoLonger(IdleAt(h, now), IdleAt(h, later))
  {
  }

  /** The profile only gets worse with the clock, and only in two of its ingredients. */
  lemma ProfileAges(h: History, now: int, later: int) returns (a: Profile, b: Profile)
    requires now <= later
    ensures a == ProfileOf(h, later) && b == ProfileOf(h, now)
    ensures a == b.(overdue := a.overdue, idle := a.idle)
    ensures AtLeast(b, a)
  {
    hide NumOverdue, IdleAt, SumOf, NumOf;
    OverdueGrows(h, now, later);
    IdleGrows(h, now, later);
    a, b := ProfileOf(h, later), ProfileOf(h, now);
  }

  /** An idle customer's score only falls, and by no more than the 30 points that
      depend on the clock. */
  lemma IdleDecay(h: History, balance: real, now: int, later: int)
    requires now <= later
    ensures Score(h, balance, later) <= Score(h, balance, now) <= Score(h, balance, later) + 30
  {
    hide NumOverdue, IdleAt, SumOf, NumOf;
    var a, b := ProfileAges(h, now, later);
    PointsMonotone(b, balance, a, balance);
    assert RatioPoints(a.paid, a.credit) == RatioPoints(b.paid, b.credit);
  }

  lemma OverdueSettles(h: History, now: int, later: int)
    requires now <= later
    requires forall k :: k in h ==> Days(now - h[k].date) >= 91
    ensures NumOverdue(h, later) == NumOverdue(h, now)
  {
    var part := Restrict(h, IsKind(Credit));
    assert Restrict(part, OverdueAt(now)) == part == Restrict(part, OverdueAt(later));
  }

  lemma IdleStale(h: History, now: int)
    requires forall k :: k in h ==> Days(now - h[k].date) >= 91
    ensures RecencyPoints(IdleAt(h, now)) == 0
  {
  }

  /** From 91 days after the newest transaction on, the score no longer moves. */
  lemma IdleSettles(h: History, balance: real, now: int, later: int)
    requires now <= later
    requires forall k :: k in h ==> now - h[k].date >= 7_862_400_000
    ensures Score(h, balance, later) == Score(h, balance, now)
  {
    hide NumOverdue, IdleAt, SumOf, NumOf;
    forall k | k in h ensures Days(later - h[k].date) >= Days(now - h[k].date) >= 91 {}
    OverdueSettles(h, now, later);
    IdleStale(h, now);
    IdleStale(h, later);
  }

  // ---- Bounds that hold because the balance is the net of the history ----------------------

  /** Nothing owed keeps the score out of the two worst categories, whatever the amounts. */
  lemma SettledBound(h: History, balance: real, now: int)
    requires balance == Net(h) && balance <= 0.0
    ensures Score(h, balance, now) >= 50
    ensures Positive(h) ==> Score(h, balance, now) >= 53
  {
    hide NumOverdue, IdleAt, SumOf, NumOf;
    ProfileSane(h, now);
  }

  lemma OwingBound(h: History, balance: real, now: int)
    requires Positive(h) && balance == Net(h) && balance > 0.0
    ensures Score(h, balance, now) <= 94
  {
    hide NumOverdue, IdleAt, SumOf, NumOf;
    ProfileSane(h, now);
    OwingPoints(ProfileOf(h, now), balance);
  }

  lemma OwingPoints(p: Profile, balance: real)
    requires p.credit > 0.0 && p.paid < p.credit && balance > 0.0
    ensures Points(p, balance) <= 94
  {
  }

  lemma NeverPaidBound(h: History, balance: real, now: int)
    requires Positive(h) && balance == Net(h) && h != map[] && NumOf(h, Payment) == 0
    ensures Score(h, balance, now) <= 38
  {
    hide NumOverdue, IdleAt, SumOf, NumOf;
    ProfileSane(h, now);
    NeverPaidPoints(ProfileOf(h, now), balance);
  }

  lemma NeverPaidPoints(p: Profile, balance: real)
    requires p.paid == 0.0 && p.credit > 0.0 && p.payments == 0 && p.idle.Never? && balance > 0.0
    ensures Points(p, balance) <= 38
  {
  }

  lemma NeverBorrowedBound(h: History, balance: real, now: int)
    requires Positive(h) && balance == Net(h) && NumOf(h, Credit) == 0
    ensures Score(h, balance, now) >= 73
  {
    hide NumOverdue, IdleAt, SumOf, NumOf;
    ProfileSane(h, now);
  }
}
