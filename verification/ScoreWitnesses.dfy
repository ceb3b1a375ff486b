/** Histories that attain the bounds of the score, so none of them can be improved. */
module ScoreWitnesses {
  import opened Collections
  import opened Records
  import opened Scoring

  function Doc(kind: Kind, amount: real, date: int): Txn {
    Txn("m", 0, "", kind, amount, "", date, false)
  }

  /** n transactions alike on top of h, with the ids from first on. */
  function Batch(h: History, first: Id, n: nat, t: Txn): History {
    if n == 0 then h else Batch(h, first, n - 1, t)[first + n - 1 := t]
  }

  lemma {:induction false} BatchKeys(h: History, first: Id, n: nat, t: Txn)
    requires forall k :: k in h ==> k < first
    ensures forall k :: k in Batch(h, first, n, t) ==> k < first + n
    ensures Positive(h) && t.amount > 0.0 ==> Positive(Batch(h, first, n, t))
    ensures n > 0 || h != map[] ==> Batch(h, first, n, t) != map[]
  {
    if n > 0 {
      BatchKeys(h, first, n - 1, t);
      assert first + n - 1 in Batch(h, first, n, t);
    }
  }

  lemma OneMore(n: nat, x: real)
    requires n > 0
    ensures n as real * x == (n - 1) as real * x + x
  {
  }

  lemma OneMoreCredit(h: History, k: Id, t: Txn, now: int)
    requires t.kind == Credit && k !in h
    ensures var b := ProfileOf(h, now);
            ProfileOf(h[k := t], now)
            == b.(credit := b.credit + t.amount, credits := b.credits + 1,
                  overdue := b.overdue + if Days(now - t.date) > 30 then 1 else 0)
  {
    hide ProfileOf;
    var a, b := ProfilePut(h, k, t, now);
  }

  /** A batch of credits adds n times its amount and its count to the profile. */
  lemma {:induction false} CreditBatch(h: History, first: Id, n: nat, t: Txn, now: int)
    requires t.kind == Credit && forall k :: k in h ==> k < first
    ensures var b := ProfileOf(h, now);
            ProfileOf(Batch(h, first, n, t), now)
            == b.(credit := b.credit + n as real * t.amount, credits := b.credits + n,
                  overdue := b.overdue + if Days(now - t.date) > 30 then n else 0)
  {
    hide ProfileOf, Positive;
    if n > 0 {
      BatchKeys(h, first, n - 1, t);
      CreditBatch(h, first, n - 1, t, now);
      OneMore(n, t.amount);
      OneMoreCredit(Batch(h, first, n - 1, t), first + n - 1, t, now);
    }
  }

  /** So does a batch of payments, which also dates the last payment if there was none. */
  lemma {:induction false} PaymentBatch(h: History, first: Id, n: nat, t: Txn, now: int)
    requires t.kind == Payment && forall k :: k in h ==> k < first
    ensures var a, b := ProfileOf(Batch(h, first, n, t), now), ProfileOf(h, now);
            && a == b.(paid := b.paid + n as real * t.amount, payments := b.payments + n, idle := a.idle)
            && (b.idle.Never? ==> a.idle == if n == 0 then Never else Idle(Days(now - t.date)))
  {
    hide ProfileOf, IdleAt;
    if n > 0 {
      var h', k := Batch(h, first, n - 1, t), first + n - 1;
      BatchKeys(h, first, n - 1, t);
      PaymentBatch(h, first, n - 1, t, now);
      OneMore(n, t.amount);
      var a, b := ProfilePut(h', k, t, now);
      IdleSame(h', k, t, now);
      IdleOf(h', now);
      IdleOf(h'[k := t], now);
    }
  }

  lemma IdleOf(h: History, now: int)
    ensures ProfileOf(h, now).idle == IdleAt(h, now)
  {
  }

  /** A first payment, or one more of the same date, leaves that date as the last one. */
  lemma IdleSame(h: History, k: Id, t: Txn, now: int)
    requires k !in h && t.kind == Payment
    ensures IdleAt(h, now).Never? || IdleAt(h, now) == Idle(Days(now - t.date)) ==>
              IdleAt(h[k := t], now) == Idle(Days(now - t.date))
  {
    var part := Restrict(h, IsKind(Payment));
    RestrictPut(h, IsKind(Payment), k, t);
    if part != map[] {
      NewestPut(part, k, t);
    } else {
      var one := part[k := t];
      assert k in one;
      var j :| j in one && one[j].date == Newest(one);
      assert j == k;
    }
  }

  /** Credits and payments in two batches. */
  function Mixed(credits: nat, credit: real, lent: int, payments: nat, payment: real, paid: int): History {
    Batch(Batch(map[], 0, credits, Doc(Credit, credit, lent)), credits, payments, Doc(Payment, payment, paid))
  }

  lemma MixedProfile(credits: nat, credit: real, lent: int, payments: nat, payment: real, paid: int, now: int)
    requires credit > 0.0 && payment > 0.0
    ensures var h := Mixed(credits, credit, lent, payments, payment, paid);
            && Positive(h)
            && (h == map[] <==> credits == 0 && payments == 0)
            && ProfileOf(h, now) == Profile(
                 payments as real * payment, credits as real * credit, payments, credits,
                 if Days(now - lent) > 30 then credits else 0,
                 if payments == 0 then Never else Idle(Days(now - paid)))
  {
    hide ProfileOf, Positive, Batch;
    var none: History := map[];
    var c, p := Doc(Credit, credit, lent), Doc(Payment, payment, paid);
    EmptyProfile(now);
    BatchKeys(none, 0, credits, c);
    CreditBatch(none, 0, credits, c, now);
    var lentOnly := Batch(none, 0, credits, c);
    BatchKeys(lentOnly, credits, payments, p);
    PaymentBatch(lentOnly, credits, payments, p, now);
    var both := Batch(lentOnly, credits, payments, p);
    assert payments == 0 ==> both == lentOnly by { NoBatch(lentOnly, credits, p); }
    assert credits == 0 ==> lentOnly == none by { NoBatch(none, 0, c); }
  }

  lemma NoBatch(h: History, first: Id, t: Txn)
    ensures Batch(h, first, 0, t) == h
  {
  }

  lemma EmptyProfile(now: int)
    ensures ProfileOf(map[], now) == Profile(0.0, 0.0, 0, 0, 0, Never) && Positive(map[])
  {
  }

  /** Each bound on scores is attained by a history of positive amounts whose balance is its net. */
  lemma BoundsAttained()
    ensures Score(Mixed(4, 25.0, 0, 1, 100.0, 0), 0.0, 7_862_400_000) == 53
    ensures Score(Mixed(1, 1000.0, 0, 10, 90.0, 0), 100.0, 0) == 94
    ensures Score(Mixed(1, 100.0, 0, 0, 1.0, 0), 100.0, 0) == 38
    ensures Score(Mixed(0, 1.0, 0, 1, 100.0, 0), -100.0, 7_862_400_000) == 73
  {
    hide ProfileOf, Mixed, Positive;
    MixedProfile(4, 25.0, 0, 1, 100.0, 0, 7_862_400_000);
    MixedProfile(1, 1000.0, 0, 10, 90.0, 0, 0);
    MixedProfile(1, 100.0, 0, 0, 1.0, 0, 0);
    MixedProfile(0, 1.0, 0, 1, 100.0, 0, 7_862_400_000);
  }

  /** Idle time can cost all of its 30 points, and there are points left to lose up to the
      last millisecond of day 90. */
  lemma DecayAttained()
    ensures Score(Mixed(4, 25.0, 0, 1, 100.0, 0), 0.0, 0)
         == Score(Mixed(4, 25.0, 0, 1, 100.0, 0), 0.0, 7_862_400_000) + 30
    ensures Score(Mixed(0, 1.0, 0, 1, 100.0, 0), -100.0, 7_862_399_999)
         == Score(Mixed(0, 1.0, 0, 1, 100.0, 0), -100.0, 7_862_400_000) + 2
  {
    hide ProfileOf, Mixed, Positive;
    MixedProfile(4, 25.0, 0, 1, 100.0, 0, 0);
    MixedProfile(4, 25.0, 0, 1, 100.0, 0, 7_862_400_000);
    MixedProfile(0, 1.0, 0, 1, 100.0, 0, 7_862_399_999);
    MixedProfile(0, 1.0, 0, 1, 100.0, 0, 7_862_400_000);
  }

  /** A credit of 50 after a payment of 100 is worth the 5 consistency points. */
  lemma RewardAttained()
    ensures Score(Mixed(1, 50.0, 0, 1, 100.0, 0), -50.0, 0) == Score(Mixed(0, 50.0, 0, 1, 100.0, 0), -100.0, 0) + 5
  {
    hide ProfileOf, Mixed, Positive;
    MixedProfile(1, 50.0, 0, 1, 100.0, 0, 0);
    MixedProfile(0, 50.0, 0, 1, 100.0, 0, 0);
  }
}
