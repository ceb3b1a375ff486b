/** The tables of the score read off histories: each one over its whole range, with every
    other factor held still. Ages are in milliseconds. */
module ScoreTables {
  import opened Collections
  import opened Records
  import opened Scoring
  import opened ScoreWitnesses

  // ---- Factors that depend on the clock --------------------------------------------------------

  /** A single credit of 100 is overdue from its 31st day on. */
  lemma LoneCredit(lent: int, now: int)
    ensures Score(Mixed(1, 100.0, lent, 0, 1.0, 0), 100.0, now) == if now - lent < 2_678_400_000 then 38 else 32
  {
    hide ProfileOf, Mixed, Positive;
    MixedProfile(1, 100.0, lent, 0, 1.0, 0, now);
  }

  /** A single payment of 100 counts as recent by its age: up to 7, 15, 30, 60 and 90 days. */
  lemma LonePayment(paid: int, now: int)
    ensures Score(Mixed(0, 1.0, 0, 1, 100.0, paid), -100.0, now)
         == 73 + (var age := now - paid;
                  if age < 691_200_000 then 10
                  else if age < 1_382_400_000 then 8
                  else if age < 2_678_400_000 then 6
                  else if age < 5_270_400_000 then 4
                  else if age < 7_862_400_000 then 2
                  else 0)
  {
    hide ProfileOf, Mixed, Positive;
    MixedProfile(0, 1.0, 0, 1, 100.0, paid, now);
  }

  /** n credits of 31 days, and nothing paid. */
  lemma OverdueTable(n: nat)
    requires n > 0
    ensures Score(Mixed(n, 1.0, 0, 0, 1.0, 0), n as real, 2_678_400_000)
         == (if n == 1 then 14 else if n == 2 then 8 else if n == 3 then 3 else 0)
            + (if n <= 500 then 18 else if n <= 1000 then 16 else if n <= 3000 then 13 else if n <= 5000 then 10
               else if n <= 10000 then 7 else if n <= 25000 then 4 else if n <= 100000 then 2 else 0)
  {
    hide ProfileOf, Mixed, Positive;
    MixedProfile(n, 1.0, 0, 0, 1.0, 0, 2_678_400_000);
  }

  // ---- Amounts -------------------------------------------------------------------------------------

  /** One fresh credit of any size, and nothing paid: only the size of the balance matters. */
  lemma BalanceTable(lent: real)
    requires lent > 0.0
    ensures Score(Mixed(1, lent, 0, 0, 1.0, 0), lent, 0)
         == 20 + (if lent <= 500.0 then 18 else if lent <= 1000.0 then 16 else if lent <= 3000.0 then 13
                  else if lent <= 5000.0 then 10 else if lent <= 10000.0 then 7 else if lent <= 25000.0 then 4
                  else if lent <= 100000.0 then 2 else 0)
  {
    hide ProfileOf, Mixed, Positive;
    MixedProfile(1, lent, 0, 0, 1.0, 0, 0);
  }

  /** A credit of 100 and one payment of any size: the share paid, and 2 points more once
      nothing is owed. */
  lemma RatioTable(paid: real)
    requires paid > 0.0
    ensures Score(Mixed(1, 100.0, 0, 1, paid, 0), 100.0 - paid, 0)
         == 56 + (if paid >= 100.0 then 32 else if paid >= 85.0 then 26 else if paid >= 70.0 then 22
                  else if paid >= 55.0 then 17 else if paid >= 40.0 then 12 else if paid >= 25.0 then 7
                  else if paid >= 10.0 then 3 else 0)
  {
    hide ProfileOf, Mixed, Positive;
    MixedProfile(1, 100.0, 0, 1, paid, 0, 0);
  }

  // ---- Counts --------------------------------------------------------------------------------------

  /** n fresh payments and no credit. */
  lemma FrequencyTable(n: nat)
    requires n > 0
    ensures Score(Mixed(0, 1.0, 0, n, 1.0, 0), -(n as real), 0)
         == 80 + (if n >= 10 then 15 else if n >= 7 then 12 else if n >= 5 then 9 else if n >= 3 then 6 else 3)
  {
    hide ProfileOf, Mixed, Positive;
    MixedProfile(0, 1.0, 0, n, 1.0, 0, 0);
  }

  /** Three fresh payments that settle m fresh credits exactly: the payments per credit. */
  lemma ConsistencyTable(m: nat)
    requires m > 0
    ensures Score(Mixed(m, 3.0, 0, 3, m as real, 0), 0.0, 0)
         == 86 + (if m <= 3 then 5 else if m == 4 then 3 else if m <= 6 then 1 else 0)
  {
    hide ProfileOf, Mixed, Positive;
    MixedProfile(m, 3.0, 0, 3, m as real, 0, 0);
  }

  // ---- Categories ------------------------------------------------------------------------------------

  ghost predicate Graded(h: History, balance: real, now: int, score: int, category: Category) {
    Net(h) == balance && Score(h, balance, now) == score && CategoryOf(score) == category
  }

  lemma MixedScore(credits: nat, credit: real, lent: int, payments: nat, payment: real, paid: int, now: int)
    requires credit > 0.0 && payment > 0.0 && credits + payments > 0
    ensures var h := Mixed(credits, credit, lent, payments, payment, paid);
            var given, back := credits as real * credit, payments as real * payment;
            && Net(h) == given - back
            && Score(h, given - back, now)
               == Points(Profile(back, given, payments, credits, if now - lent < 2_678_400_000 then 0 else credits,
                                 if payments == 0 then Never else Idle(Days(now - paid))), given - back)
  {
    hide Mixed, Positive, Points, SumOf, NumOf, NumOverdue, IdleAt;
    MixedProfile(credits, credit, lent, payments, payment, paid, now);
  }

  /** Histories with a score just below, and exactly on, the threshold of each category. */
  lemma LowCategoriesAttained()
    ensures Graded(Mixed(1, 6000.0, 0, 1, 1.0, 0), 5999.0, 7_862_400_000, 29, Defaulter)
    ensures Graded(Mixed(1, 5000.0, 0, 0, 1.0, 0), 5000.0, 0, 30, HighRisk)
    ensures Graded(Mixed(1, 20000.0, 0, 1, 6000.0, 0), 14000.0, 0, 49, HighRisk)
    ensures Graded(Mixed(1, 200000.0, 0, 1, 80000.0, 0), 120000.0, 0, 50, MediumRisk)
  {
    hide Score, Net, Mixed;
    MixedScore(1, 6000.0, 0, 1, 1.0, 0, 7_862_400_000);
    MixedScore(1, 5000.0, 0, 0, 1.0, 0, 0);
    MixedScore(1, 20000.0, 0, 1, 6000.0, 0, 0);
    MixedScore(1, 200000.0, 0, 1, 80000.0, 0, 0);
  }

  lemma HighCategoriesAttained()
    ensures Graded(Mixed(1, 50000.0, 0, 1, 35000.0, 0), 15000.0, 0, 64, MediumRisk)
    ensures Graded(Mixed(1, 10000.0, 0, 1, 6000.0, 0), 4000.0, 0, 65, LowRisk)
    ensures Graded(Mixed(0, 1.0, 0, 1, 100.0, 0), -100.0, 1_382_400_000, 79, LowRisk)
    ensures Graded(Mixed(1, 5000.0, 0, 1, 4250.0, 0), 750.0, 0, 80, Excellent)
  {
    hide Score, Net, Mixed;
    MixedScore(1, 50000.0, 0, 1, 35000.0, 0, 0);
    MixedScore(1, 10000.0, 0, 1, 6000.0, 0, 0);
    MixedScore(0, 1.0, 0, 1, 100.0, 0, 1_382_400_000);
    MixedScore(1, 5000.0, 0, 1, 4250.0, 0, 0);
  }
}
