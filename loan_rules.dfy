/** The pure rules of service/impl/LoanServiceImpl.java: which installment counts
    are accepted, the installment schedule, the early/late adjustment, the 3-month
    payment horizon, the candidate selection and the one-pass payment allocation. */
module LoanRules {
  import opened Wrappers
  import opened Calendar
  import opened Entities
  import opened Errors

  // ---------------------------------------------------------------------------
  // Installment counts

  /** The counts listed in the INVALID_NUMBER_OF_INSTALLMENTS message. */
  const ListedInstallmentCounts: seq<nat> := [6, 9, 12, 24]

  /** isValidInstallmentCount: a count is accepted exactly when the error message lists it. */
  function IsValidInstallmentCount(n: int): (valid: bool)
    ensures valid <==> n in ListedInstallmentCounts
  {
    n == 6 || n == 9 || n == 12 || n == 24
  }

  function DigitChar(d: nat): char
    requires d < 10
  {
    "0123456789"[d]
  }

  /** Decimal rendering of a natural number. */
  function Decimal(n: nat): string
    decreases n
  {
    if n < 10 then [DigitChar(n)] else Decimal(n / 10) + [DigitChar(n % 10)]
  }

  /** The numbers rendered in decimal and separated by ", ". */
  function JoinDecimal(ns: seq<nat>): string {
    if |ns| == 0 then ""
    else if |ns| == 1 then Decimal(ns[0])
    else Decimal(ns[0]) + ", " + JoinDecimal(ns[1..])
  }

  /** The error message for a rejected count names, in decimal, exactly the counts
      IsValidInstallmentCount accepts. */
  lemma InstallmentCountMessageMatchesCheck()
    ensures InvalidNumberOfInstallments.Message()
         == "Number of installments must be one of the following: " + JoinDecimal(ListedInstallmentCounts) + "."
  {
    assert Decimal(12) == "12" by { assert Decimal(1) == "1"; }
    assert Decimal(24) == "24" by { assert Decimal(2) == "2"; }
    assert JoinDecimal(ListedInstallmentCounts) == "6, 9, 12, 24" by {
      assert ListedInstallmentCounts[1..] == [9, 12, 24];
      assert ListedInstallmentCounts[2..] == [12, 24];
      assert ListedInstallmentCounts[3..] == [24];
    }
  }

  // ---------------------------------------------------------------------------
  // The installment schedule built by createInstallments

  /** A batch of `n` fresh installments of `installmentAmount` each, the first due on
      the first day of the month after `today` and each later one a month after the previous. */
  ghost predicate IsSchedule(batch: seq<Installment>, installmentAmount: real, n: nat, today: Date) {
    && |batch| == n
    && forall i :: 0 <= i < n ==>
         batch[i] == Installment(installmentAmount, 0.0, Date(today.month + 1 + i, 1), None, false)
  }

  /** Sum of the nominal amounts of a list of installments. */
  function SumAmounts(s: seq<Installment>): real {
    if |s| == 0 then 0.0 else SumAmounts(s[..|s| - 1]) + s[|s| - 1].amount
  }

  /** Due dates of a schedule: first-of-month dates, the first one the first day of the
      month after `today`, each a calendar month after the previous, strictly increasing. */
  lemma ScheduleDueDates(batch: seq<Installment>, installmentAmount: real, n: nat, today: Date)
    requires ValidDate(today) && IsSchedule(batch, installmentAmount, n, today)
    ensures n > 0 ==> batch[0].dueDate == FirstOfNextMonth(today)
    ensures forall i :: 0 <= i < n ==> ValidDate(batch[i].dueDate) && batch[i].dueDate.day == 1
    ensures forall i :: 0 <= i < n - 1 ==> batch[i + 1].dueDate == PlusMonths(batch[i].dueDate, 1)
    ensures forall i, j :: 0 <= i < j < n ==> IsBefore(batch[i].dueDate, batch[j].dueDate)
  {
  }

  lemma {:induction false} SumOfEqualAmounts(s: seq<Installment>, a: real)
    requires forall i :: 0 <= i < |s| ==> s[i].amount == a
    ensures SumAmounts(s) == |s| as real * a
  {
    if |s| > 0 {
      SumOfEqualAmounts(s[..|s| - 1], a);
    }
  }

  /** The installments of a schedule split `totalAmount` into equal parts that add up to it. */
  lemma {:induction false} ScheduleSumsToTotal(batch: seq<Installment>, totalAmount: real, n: nat, today: Date)
    requires n > 0 && IsSchedule(batch, totalAmount / n as real, n, today)
    ensures SumAmounts(batch) == totalAmount
    ensures forall i, j :: 0 <= i < j < n ==> batch[i].amount == batch[j].amount
  {
    SumOfEqualAmounts(batch, totalAmount / n as real);
  }

  // ---------------------------------------------------------------------------
  // The early/late adjustment applied at payment time

  function Abs(x: int): nat {
    if x < 0 then -x else x
  }

  /** The amount due for an installment of nominal `amount` due on `dueDate` when paid
      on `today`: 0.1% of the amount per day, taken with the sign of the day difference
      in both the "before" and the "after" branch. Whatever the side of the due date,
      this is the nominal amount less 0.1% per day of distance from the due date. */
  function AdjustedAmount(amount: real, today: Date, dueDate: Date): (finalAmount: real)
    ensures ValidDate(today) && ValidDate(dueDate) ==>
              finalAmount == amount * (1.0 - 0.001 * Abs(DaysBetween(today, dueDate)) as real)
  {
    var daysDifference := DaysBetween(today, dueDate);
    var extra :=
      if IsBefore(today, dueDate) then -(amount * 0.001 * daysDifference as real)
      else if IsAfter(today, dueDate) then amount * 0.001 * daysDifference as real
      else 0.0;
    if ValidDate(today) && ValidDate(dueDate) then
      DaysBetweenSign(today, dueDate);
      amount + extra
    else
      amount + extra
  }

  /** Paying early lowers the amount; paying late lowers it too (the branch named a
      penalty adds a negative amount); paying on the due date leaves it unchanged. */
  lemma {:induction false} AdjustmentDirection(amount: real, today: Date, dueDate: Date)
    requires ValidDate(today) && ValidDate(dueDate) && amount > 0.0
    ensures IsBefore(today, dueDate) ==> AdjustedAmount(amount, today, dueDate) < amount
    ensures IsAfter(today, dueDate) ==> AdjustedAmount(amount, today, dueDate) < amount
    ensures today == dueDate ==> AdjustedAmount(amount, today, dueDate) == amount
  {
    DaysBetweenSign(today, dueDate);
  }

  // ---------------------------------------------------------------------------
  // Candidate selection

  /** `dueDate.isBefore(today.plusMonths(3))`. For a first-of-month due date this is a
      test on month numbers: the due month is less than three months on, or exactly three
      months on when today is not the first of the month. */
  function InHorizon(dueDate: Date, today: Date): (inside: bool)
    requires ValidDate(today)
    ensures dueDate.day == 1 ==>
              (inside <==> dueDate.month < today.month + 3 || (dueDate.month == today.month + 3 && today.day > 1))
  {
    IsBefore(dueDate, PlusMonths(today, 3))
  }

  /** An installment payLoan may pay today: not yet paid and within the horizon. */
  predicate Payable(inst: Installment, today: Date)
    requires ValidDate(today)
  {
    !inst.isPaid && InHorizon(inst.dueDate, today)
  }

  predicate StrictlyIncreasing(s: seq<nat>) {
    forall i, j :: 0 <= i < j < |s| ==> s[i] < s[j]
  }

  /** Positions of the payable installments of a loan, in stored order (never re-sorted). */
  function Candidates(stored: seq<Installment>, today: Date): (cs: seq<nat>)
    requires ValidDate(today)
    ensures StrictlyIncreasing(cs)
    ensures forall k :: 0 <= k < |cs| ==> cs[k] < |stored|
    ensures forall i :: 0 <= i < |stored| ==> (i in cs <==> Payable(stored[i], today))
  {
    if |stored| == 0 then []
    else
      var last := |stored| - 1;
      Candidates(stored[..last], today) + (if Payable(stored[last], today) then [last] else [])
  }

  /** Candidate positions into `stored`: increasing, in range, and unpaid. */
  predicate CandidateList(stored: seq<Installment>, cs: seq<nat>) {
    && StrictlyIncreasing(cs)
    && forall k :: 0 <= k < |cs| ==> cs[k] < |stored| && !stored[cs[k]].isPaid
  }

  lemma CandidatesAreCandidateList(stored: seq<Installment>, today: Date)
    requires ValidDate(today)
    ensures CandidateList(stored, Candidates(stored, today))
  {
  }

  // ---------------------------------------------------------------------------
  // Allocation of a payment over the candidates

  /** The installments, the unallocated rest of the payment and the number paid so far. */
  datatype Allocation = Allocation(installments: seq<Installment>, remaining: real, paidCount: nat)

  /** The installment marked paid for `finalAmount` on `today`. */
  function Settle(inst: Installment, finalAmount: real, today: Date): (settled: Installment)
    ensures settled.amount == inst.amount && settled.dueDate == inst.dueDate
    ensures settled.isPaid && settled.paidAmount == finalAmount && settled.paymentDate == Some(today)
  {
    inst.(paidAmount := finalAmount, isPaid := true, paymentDate := Some(today))
  }

  predicate InRange(stored: seq<Installment>, cs: seq<nat>) {
    forall k :: 0 <= k < |cs| ==> cs[k] < |stored|
  }

  /** The adjusted amount of each candidate, in candidate order. */
  function FinalAmounts(stored: seq<Installment>, cs: seq<nat>, today: Date): (fs: seq<real>)
    requires InRange(stored, cs)
    ensures |fs| == |cs|
    ensures forall k :: 0 <= k < |cs| ==>
              fs[k] == AdjustedAmount(stored[cs[k]].amount, today, stored[cs[k]].dueDate)
  {
    seq(|cs|, k requires 0 <= k < |cs| => AdjustedAmount(stored[cs[k]].amount, today, stored[cs[k]].dueDate))
  }

  /** The state after the first `k` candidates have had their turn: candidate `j` is
      paid, for `fs[j]`, exactly when what is left of the payment covers it. */
  function Allocate(stored: seq<Installment>, cs: seq<nat>, fs: seq<real>, today: Date, payment: real, k: nat)
    : (a: Allocation)
    requires k <= |cs| == |fs| && InRange(stored, cs)
    ensures |a.installments| == |stored|
    ensures a.paidCount <= k
  {
    if k == 0 then Allocation(stored, payment, 0)
    else
      var prev := Allocate(stored, cs, fs, today, payment, k - 1);
      var i := cs[k - 1];
      if prev.remaining >= fs[k - 1] then
        Allocation(prev.installments[i := Settle(stored[i], fs[k - 1], today)],
                   prev.remaining - fs[k - 1], prev.paidCount + 1)
      else prev
  }

  /** Whether the `k`-th candidate is paid at its turn. */
  predicate PaidAtTurn(stored: seq<Installment>, cs: seq<nat>, fs: seq<real>, today: Date, payment: real, k: nat)
    requires k < |cs| == |fs| && InRange(stored, cs)
  {
    Allocate(stored, cs, fs, today, payment, k).remaining >= fs[k]
  }

  /** An installment that is not among the first `k` candidates is untouched by their turns. */
  lemma {:induction false} AllocateLeavesOthers(stored: seq<Installment>, cs: seq<nat>, fs: seq<real>, today: Date, payment: real, k: nat, i: nat)
    requires k <= |cs| == |fs| && InRange(stored, cs)
    requires i < |stored| && i !in cs[..k]
    ensures Allocate(stored, cs, fs, today, payment, k).installments[i] == stored[i]
  {
    if k > 0 {
      assert cs[..k] == cs[..k - 1] + [cs[k - 1]];
      AllocateLeavesOthers(stored, cs, fs, today, payment, k - 1, i);
    }
  }

  /** Candidate `j` ends settled for `fs[j]` when that is affordable at its turn, and
      untouched otherwise, whatever happened at the turns before it. */
  lemma {:induction false} AllocateDecides(stored: seq<Installment>, cs: seq<nat>, fs: seq<real>, today: Date, payment: real, k: nat, j: nat)
    requires k <= |cs| == |fs| && InRange(stored, cs) && StrictlyIncreasing(cs)
    requires j < k
    ensures Allocate(stored, cs, fs, today, payment, k).installments[cs[j]]
         == if PaidAtTurn(stored, cs, fs, today, payment, j)
            then Settle(stored[cs[j]], fs[j], today)
            else stored[cs[j]]
  {
    if j == k - 1 {
      assert cs[j] !in cs[..k - 1];
      AllocateLeavesOthers(stored, cs, fs, today, payment, k - 1, cs[j]);
    } else {
      assert cs[j] < cs[k - 1];
      AllocateDecides(stored, cs, fs, today, payment, k - 1, j);
    }
  }

  /** The whole allocation: only candidates change, and each candidate is settled for
      its final amount exactly when that is affordable at its turn (no early exit). */
  lemma AllocateEffect(stored: seq<Installment>, cs: seq<nat>, fs: seq<real>, today: Date, payment: real)
    requires |cs| == |fs| && InRange(stored, cs) && StrictlyIncreasing(cs)
    ensures forall i :: 0 <= i < |stored| && i !in cs ==>
              Allocate(stored, cs, fs, today, payment, |cs|).installments[i] == stored[i]
    ensures forall j :: 0 <= j < |cs| ==>
              Allocate(stored, cs, fs, today, payment, |cs|).installments[cs[j]]
              == if PaidAtTurn(stored, cs, fs, today, payment, j)
                 then Settle(stored[cs[j]], fs[j], today)
                 else stored[cs[j]]
  {
    forall i | 0 <= i < |stored| && i !in cs
      ensures Allocate(stored, cs, fs, today, payment, |cs|).installments[i] == stored[i]
    {
      assert cs[..|cs|] == cs;
      AllocateLeavesOthers(stored, cs, fs, today, payment, |cs|, i);
    }
    forall j | 0 <= j < |cs|
      ensures Allocate(stored, cs, fs, today, payment, |cs|).installments[cs[j]]
              == if PaidAtTurn(stored, cs, fs, today, payment, j)
                 then Settle(stored[cs[j]], fs[j], today)
                 else stored[cs[j]]
    {
      AllocateDecides(stored, cs, fs, today, payment, |cs|, j);
    }
  }

  /** What is left of a non-negative payment never goes negative. */
  lemma {:induction false} AllocateRemainingNonNegative(stored: seq<Installment>, cs: seq<nat>, fs: seq<real>, today: Date, payment: real, k: nat)
    requires k <= |cs| == |fs| && InRange(stored, cs) && payment >= 0.0
    ensures Allocate(stored, cs, fs, today, payment, k).remaining >= 0.0
  {
    if k > 0 {
      AllocateRemainingNonNegative(stored, cs, fs, today, payment, k - 1);
    }
  }

  // ---------------------------------------------------------------------------
  // Accounting of a payment

  /** Sum of `paidAmount` over the first `n` installments that are unpaid in `before`
      and paid in `after`. */
  function NewlyPaidTotal(before: seq<Installment>, after: seq<Installment>, n: nat): real
    requires n <= |before| && n <= |after|
  {
    if n == 0 then 0.0
    else NewlyPaidTotal(before, after, n - 1)
         + (if !before[n - 1].isPaid && after[n - 1].isPaid then after[n - 1].paidAmount else 0.0)
  }

  /** Number of the first `n` installments that are unpaid in `before` and paid in `after`. */
  function NewlyPaidCount(before: seq<Installment>, after: seq<Installment>, n: nat): nat
    requires n <= |before| && n <= |after|
  {
    if n == 0 then 0
    else NewlyPaidCount(before, after, n - 1) + (if !before[n - 1].isPaid && after[n - 1].isPaid then 1 else 0)
  }

  /** Number of unpaid installments among the first `n`. */
  function UnpaidBelow(s: seq<Installment>, n: nat): nat
    requires n <= |s|
  {
    if n == 0 then 0 else UnpaidBelow(s, n - 1) + (if s[n - 1].isPaid then 0 else 1)
  }

  /** The first `n` installments that are unpaid, counted as a set of positions. */
  lemma {:induction false} UnpaidBelowCountsPositions(s: seq<Installment>, n: nat)
    requires n <= |s|
    ensures UnpaidBelow(s, n) == |set i | 0 <= i < n && !s[i].isPaid|
  {
    if n > 0 {
      UnpaidBelowCountsPositions(s, n - 1);
      var below := set i | 0 <= i < n - 1 && !s[i].isPaid;
      if s[n - 1].isPaid {
        assert (set i | 0 <= i < n && !s[i].isPaid) == below;
      } else {
        assert (set i | 0 <= i < n && !s[i].isPaid) == below + {n - 1};
      }
    }
  }

  /** Number of unpaid installments of a loan: the number of positions holding one. */
  function UnpaidCount(s: seq<Installment>): (unpaid: nat)
    ensures unpaid == |set i | 0 <= i < |s| && !s[i].isPaid|
  {
    UnpaidBelowCountsPositions(s, |s|);
    UnpaidBelow(s, |s|)
  }

  lemma {:induction false} NothingNewlyPaid(s: seq<Installment>, n: nat)
    requires n <= |s|
    ensures NewlyPaidTotal(s, s, n) == 0.0 && NewlyPaidCount(s, s, n) == 0
  {
    if n > 0 {
      NothingNewlyPaid(s, n - 1);
    }
  }

  /** Paying one more installment adds its paid amount to the total and one to the count. */
  lemma {:induction false} NewlyPaidAfterUpdate(before: seq<Installment>, after: seq<Installment>, i: nat, x: Installment, n: nat)
    requires |before| == |after| && n <= |after| && i < |after|
    requires !before[i].isPaid && !after[i].isPaid && x.isPaid
    ensures NewlyPaidTotal(before, after[i := x], n)
         == NewlyPaidTotal(before, after, n) + (if i < n then x.paidAmount else 0.0)
    ensures NewlyPaidCount(before, after[i := x], n)
         == NewlyPaidCount(before, after, n) + (if i < n then 1 else 0)
  {
    if n > 0 {
      NewlyPaidAfterUpdate(before, after, i, x, n - 1);
    }
  }

  /** When nothing goes from paid to unpaid, the unpaid count drops by the number newly paid. */
  lemma {:induction false} UnpaidAfterPayments(before: seq<Installment>, after: seq<Installment>, n: nat)
    requires |before| == |after| && n <= |after|
    requires forall i :: 0 <= i < |before| && before[i].isPaid ==> after[i].isPaid
    ensures UnpaidBelow(before, n) == UnpaidBelow(after, n) + NewlyPaidCount(before, after, n)
  {
    if n > 0 {
      UnpaidAfterPayments(before, after, n - 1);
    }
  }

  /** The books balance after every turn: what is left is the payment less the amounts
      recorded on the installments paid so far, and the paid counter counts exactly them. */
  lemma {:induction false} AllocateAccounts(stored: seq<Installment>, cs: seq<nat>, fs: seq<real>, today: Date, payment: real, k: nat)
    requires k <= |cs| == |fs| && CandidateList(stored, cs)
    ensures InRange(stored, cs)
    ensures Allocate(stored, cs, fs, today, payment, k).remaining
         == payment - NewlyPaidTotal(stored, Allocate(stored, cs, fs, today, payment, k).installments, |stored|)
    ensures Allocate(stored, cs, fs, today, payment, k).paidCount
         == NewlyPaidCount(stored, Allocate(stored, cs, fs, today, payment, k).installments, |stored|)
  {
    if k == 0 {
      NothingNewlyPaid(stored, |stored|);
    } else {
      AllocateAccounts(stored, cs, fs, today, payment, k - 1);
      var prev := Allocate(stored, cs, fs, today, payment, k - 1);
      var last := cs[k - 1];
      if prev.remaining >= fs[k - 1] {
        assert last !in cs[..k - 1];
        AllocateLeavesOthers(stored, cs, fs, today, payment, k - 1, last);
        NewlyPaidAfterUpdate(stored, prev.installments, last, Settle(stored[last], fs[k - 1], today), |stored|);
      }
    }
  }

  /** Every candidate is paid: the loan-closure test of payLoan, over the candidates only.
      Installments that are not candidates play no part. */
  function AllPaid(s: seq<Installment>, cs: seq<nat>): (all: bool)
    ensures InRange(s, cs) ==> (all <==> forall i :: 0 <= i < |s| && i in cs ==> s[i].isPaid)
  {
    forall k :: 0 <= k < |cs| ==> cs[k] < |s| && s[cs[k]].isPaid
  }

  /** The outcome of a whole payment, as payLoan reports it: the rest of the payment is
      non-negative and equals the payment less what was recorded on the installments paid;
      the paid counter is the number of installments paid; the unpaid count of the loan
      drops by exactly that number; and the loan closes exactly when every candidate was
      affordable at its turn. */
  lemma AllocateOutcome(stored: seq<Installment>, cs: seq<nat>, fs: seq<real>, today: Date, payment: real)
    requires |cs| == |fs| && CandidateList(stored, cs) && payment >= 0.0
    ensures InRange(stored, cs)
    ensures var a := Allocate(stored, cs, fs, today, payment, |cs|);
      && a.remaining >= 0.0
      && a.remaining == payment - NewlyPaidTotal(stored, a.installments, |stored|)
      && a.paidCount == NewlyPaidCount(stored, a.installments, |stored|)
      && UnpaidCount(a.installments) + a.paidCount == UnpaidCount(stored)
      && (AllPaid(a.installments, cs) <==> forall k :: 0 <= k < |cs| ==> PaidAtTurn(stored, cs, fs, today, payment, k))
  {
    var a := Allocate(stored, cs, fs, today, payment, |cs|);
    AllocateRemainingNonNegative(stored, cs, fs, today, payment, |cs|);
    AllocateAccounts(stored, cs, fs, today, payment, |cs|);
    AllocateEffect(stored, cs, fs, today, payment);
    forall i | 0 <= i < |stored| && stored[i].isPaid
      ensures a.installments[i].isPaid
    {
    }
    UnpaidAfterPayments(stored, a.installments, |stored|);
  }

  /** The allocation payLoan performs on a loan's stored installments: every candidate,
      in stored order, gets its turn against its adjusted amount. */
  function PaymentAllocation(stored: seq<Installment>, today: Date, payment: real): (a: Allocation)
    requires ValidDate(today)
    ensures |a.installments| == |stored|
    ensures a.paidCount <= |Candidates(stored, today)|
  {
    var cs := Candidates(stored, today);
    Allocate(stored, cs, FinalAmounts(stored, cs, today), today, payment, |cs|)
  }

  /** Whether the payment leaves every candidate paid, which is when payLoan closes the loan. */
  predicate PaysOff(stored: seq<Installment>, today: Date, payment: real)
    requires ValidDate(today)
  {
    AllPaid(PaymentAllocation(stored, today, payment).installments, Candidates(stored, today))
  }

  /** payLoan's allocation end to end: installments that are not payable today are left
      as they are; each candidate is settled for its adjusted amount exactly when that is
      affordable at its turn; the books balance; and the loan closes exactly when every
      candidate was affordable at its turn. */
  lemma PaymentOutcome(stored: seq<Installment>, today: Date, payment: real)
    requires ValidDate(today) && payment >= 0.0
    ensures var cs := Candidates(stored, today);
      var fs := FinalAmounts(stored, cs, today);
      var a := PaymentAllocation(stored, today, payment);
      && (forall i :: 0 <= i < |stored| && !Payable(stored[i], today) ==> a.installments[i] == stored[i])
      && (forall k :: 0 <= k < |cs| ==>
            a.installments[cs[k]] == if PaidAtTurn(stored, cs, fs, today, payment, k)
                                     then Settle(stored[cs[k]], fs[k], today)
                                     else stored[cs[k]])
      && a.remaining >= 0.0
      && a.remaining == payment - NewlyPaidTotal(stored, a.installments, |stored|)
      && a.paidCount == NewlyPaidCount(stored, a.installments, |stored|)
      && UnpaidCount(a.installments) + a.paidCount == UnpaidCount(stored)
      && (PaysOff(stored, today, payment) <==> forall k :: 0 <= k < |cs| ==> PaidAtTurn(stored, cs, fs, today, payment, k))
  {
    var cs := Candidates(stored, today);
    var fs := FinalAmounts(stored, cs, today);
    CandidatesAreCandidateList(stored, today);
    AllocateOutcome(stored, cs, fs, today, payment);
    AllocateEffect(stored, cs, fs, today, payment);
  }

  /** On the day a schedule is created, the installments payLoan may pay are the first
      two, and the third as well unless today is the first of the month. */
  lemma FreshScheduleCandidates(batch: seq<Installment>, installmentAmount: real, n: nat, today: Date)
    requires ValidDate(today) && IsSchedule(batch, installmentAmount, n, today)
    ensures forall i :: 0 <= i < n ==>
              (i in Candidates(batch, today) <==> i < 2 || (i == 2 && today.day > 1))
  {
  }
}
