/** The services (service/impl/CustomerServiceImpl.java and LoanServiceImpl.java) over
    in-memory repositories: customers and loans by id, and each loan's installments in
    the order the installment repository returns them. */
module CreditService {
  import opened Wrappers
  import opened Calendar
  import opened Entities
  import opened Errors
  import opened LoanRules

  // ---------------------------------------------------------------------------
  // Repository queries and the filters of listLoans

  predicate IdsIncreasing(s: seq<Loan>) {
    forall i, j :: 0 <= i < j < |s| ==> s[i].id < s[j].id
  }

  /** loanRepository.findByCustomerId over the loans with ids below `n`, in id order. */
  function LoansBelow(loans: map<nat, Loan>, customerId: nat, n: nat): (r: seq<Loan>)
    requires forall id: nat :: id < n ==> id in loans && loans[id].id == id
    ensures IdsIncreasing(r)
    ensures forall k :: 0 <= k < |r| ==>
              r[k].id < n && r[k] == loans[r[k].id] && r[k].customerId == customerId
    ensures forall id: nat :: id < n && loans[id].customerId == customerId ==> loans[id] in r
    ensures forall l :: l in r ==> l.id < n && l == loans[l.id] && l.customerId == customerId
  {
    if n == 0 then []
    else
      var l := loans[n - 1];
      LoansBelow(loans, customerId, n - 1) + (if l.customerId == customerId then [l] else [])
  }

  /** `r` is obtained from `s` by deleting elements: its first element is matched with the
      earliest equal element of `s`, and so on. */
  ghost predicate SubsequenceOf(r: seq<Loan>, s: seq<Loan>) {
    if |r| == 0 then true
    else if |s| == 0 then false
    else if r[0] == s[0] then SubsequenceOf(r[1..], s[1..])
    else SubsequenceOf(r, s[1..])
  }

  /** Stream filter: the elements of `s` that satisfy `p`, in their order in `s`, each
      as often as it occurs in `s`. */
  function FilterLoans(s: seq<Loan>, p: Loan -> bool): (r: seq<Loan>)
    ensures forall l :: l in r <==> l in s && p(l)
    ensures IdsIncreasing(s) ==> IdsIncreasing(r)
  {
    if |s| == 0 then []
    else
      var rest := FilterLoans(s[1..], p);
      assert IdsIncreasing(s) ==> forall l :: l in rest ==> s[0].id < l.id by {
        if IdsIncreasing(s) {
          forall l | l in rest ensures s[0].id < l.id {
            var k :| 0 <= k < |s[1..]| && s[1..][k] == l;
            assert s[k + 1] == l;
          }
        }
      }
      if p(s[0]) then [s[0]] + rest else rest
  }

  /** The filter keeps the elements satisfying `p` in their order in `s`, each as often
      as it occurs there, and drops the others. */
  lemma {:induction false} FilterLoansSelects(s: seq<Loan>, p: Loan -> bool)
    ensures SubsequenceOf(FilterLoans(s, p), s)
    ensures forall l :: multiset(FilterLoans(s, p))[l] == if p(l) then multiset(s)[l] else 0
  {
    if |s| > 0 {
      FilterLoansSelects(s[1..], p);
      var rest := FilterLoans(s[1..], p);
      assert s == [s[0]] + s[1..];
      if p(s[0]) {
        assert ([s[0]] + rest)[1..] == rest;
      } else if |rest| > 0 {
        assert rest[0] in rest;
      }
    }
  }

  /** Filtering twice is filtering once on both conditions. */
  lemma {:induction false} FilterTwice(s: seq<Loan>, p: Loan -> bool, q: Loan -> bool, pq: Loan -> bool)
    requires forall l :: pq(l) == (p(l) && q(l))
    ensures FilterLoans(FilterLoans(s, p), q) == FilterLoans(s, pq)
  {
    if |s| > 0 {
      FilterTwice(s[1..], p, q, pq);
    }
  }

  /** Filters on conditions that agree everywhere select the same elements. */
  lemma {:induction false} FilterSameCondition(s: seq<Loan>, p: Loan -> bool, q: Loan -> bool)
    requires forall l :: p(l) == q(l)
    ensures FilterLoans(s, p) == FilterLoans(s, q)
  {
    if |s| > 0 {
      FilterSameCondition(s[1..], p, q);
    }
  }

  /** A filter every element passes keeps the whole sequence. */
  lemma {:induction false} FilterKeepsAll(s: seq<Loan>, p: Loan -> bool)
    requires forall l :: p(l)
    ensures FilterLoans(s, p) == s
  {
    if |s| > 0 {
      FilterKeepsAll(s[1..], p);
      assert s == [s[0]] + s[1..];
    }
  }

  /** The loan passes each filter that was supplied. */
  predicate MatchesFilters(l: Loan, numberOfInstallment: Option<int>, isPaid: Option<bool>) {
    && (numberOfInstallment.None? || l.numberOfInstallment == numberOfInstallment.value)
    && (isPaid.None? || l.isPaid == isPaid.value)
  }

  /** The two optional filters of listLoans, applied one after the other as the source
      does: first on the installment count, then on the paid flag. */
  function ApplyFilters(owned: seq<Loan>, numberOfInstallment: Option<int>, isPaid: Option<bool>): (r: seq<Loan>)
    ensures forall l :: l in r <==> l in owned && MatchesFilters(l, numberOfInstallment, isPaid)
    ensures IdsIncreasing(owned) ==> IdsIncreasing(r)
  {
    var counted := if numberOfInstallment.Some?
                   then FilterLoans(owned, (l: Loan) => MatchesFilters(l, numberOfInstallment, None))
                   else owned;
    if isPaid.Some? then FilterLoans(counted, (l: Loan) => MatchesFilters(l, None, isPaid)) else counted
  }

  /** The two filters together act as one stream filter on both conditions: the loans
      passing every supplied filter, in their order, each as often as it occurs. */
  lemma ApplyFiltersSelects(owned: seq<Loan>, numberOfInstallment: Option<int>, isPaid: Option<bool>)
    ensures var r := ApplyFilters(owned, numberOfInstallment, isPaid);
      && SubsequenceOf(r, owned)
      && forall l :: multiset(r)[l] == if MatchesFilters(l, numberOfInstallment, isPaid) then multiset(owned)[l] else 0
  {
    var byCount := (l: Loan) => MatchesFilters(l, numberOfInstallment, None);
    var byPaid := (l: Loan) => MatchesFilters(l, None, isPaid);
    var both := (l: Loan) => MatchesFilters(l, numberOfInstallment, isPaid);
    if numberOfInstallment.Some? && isPaid.Some? {
      FilterTwice(owned, byCount, byPaid, both);
    } else if numberOfInstallment.Some? {
      FilterSameCondition(owned, byCount, both);
    } else if isPaid.Some? {
      FilterSameCondition(owned, byPaid, both);
    } else {
      FilterKeepsAll(owned, both);
    }
    FilterLoansSelects(owned, both);
  }

  /** The owner of a loan after payLoan's closing step: the loan's amount is released from
      the used credit when the loan closes, and nothing changes otherwise. */
  function ReleaseCredit(owner: Customer, loanAmount: real, closes: bool): (after: Customer)
    ensures after.id == owner.id && after.name == owner.name && after.surname == owner.surname
    ensures after.creditLimit == owner.creditLimit
    ensures closes ==> after.usedCreditLimit == owner.usedCreditLimit - loanAmount
    ensures !closes ==> after == owner
  {
    if closes then owner.(usedCreditLimit := owner.usedCreditLimit - loanAmount) else owner
  }

  /** The response DTOs of a list of loans, in the same order. */
  function SummarizeLoans(s: seq<Loan>): (r: seq<LoanSummary>)
    ensures |r| == |s| && forall k :: 0 <= k < |s| ==> r[k] == SummarizeLoan(s[k])
  {
    seq(|s|, k requires 0 <= k < |s| => SummarizeLoan(s[k]))
  }

  /** What listLoans returns for a customer: exactly the summaries of that customer's
      loans passing the filters, in increasing id order. */
  lemma ListedLoans(loans: map<nat, Loan>, customerId: nat, n: nat, numberOfInstallment: Option<int>, isPaid: Option<bool>)
    requires forall id: nat :: id in loans <==> id < n
    requires forall id: nat :: id in loans ==> loans[id].id == id
    ensures var r := SummarizeLoans(ApplyFilters(LoansBelow(loans, customerId, n), numberOfInstallment, isPaid));
      && (forall k :: 0 <= k < |r| ==>
            && r[k].id in loans
            && loans[r[k].id].customerId == customerId
            && MatchesFilters(loans[r[k].id], numberOfInstallment, isPaid)
            && r[k] == SummarizeLoan(loans[r[k].id]))
      && (forall id :: id in loans && loans[id].customerId == customerId
                       && MatchesFilters(loans[id], numberOfInstallment, isPaid)
            ==> SummarizeLoan(loans[id]) in r)
      && (forall i, j :: 0 <= i < j < |r| ==> r[i].id < r[j].id)
  {
    var owned := LoansBelow(loans, customerId, n);
    var selected := ApplyFilters(owned, numberOfInstallment, isPaid);
    var r := SummarizeLoans(selected);
    forall id | id in loans && loans[id].customerId == customerId
                && MatchesFilters(loans[id], numberOfInstallment, isPaid)
      ensures SummarizeLoan(loans[id]) in r
    {
      assert loans[id] in selected;
      var k :| 0 <= k < |selected| && selected[k] == loans[id];
      assert r[k] == SummarizeLoan(loans[id]);
    }
    assert forall k :: 0 <= k < |selected| ==> selected[k] in owned;
    assert IdsIncreasing(selected);
  }

  class CreditModule {
    var customers: map<nat, Customer>
    var loans: map<nat, Loan>
    /** Installments by owning loan id, in repository order. */
    var installments: map<nat, seq<Installment>>
    /** The next identity the customer and loan repositories hand out. */
    var nextCustomerId: nat
    var nextLoanId: nat

    /** Ids are dense and stored in their records; every loan has an existing owner;
        installments belong to existing loans. */
    ghost predicate Valid()
      reads this
    {
      && (forall id: nat :: id in customers <==> id < nextCustomerId)
      && (forall id: nat :: id in customers ==> customers[id].id == id)
      && (forall id: nat :: id in loans <==> id < nextLoanId)
      && (forall id: nat :: id in loans ==> loans[id].id == id && loans[id].customerId in customers)
      && (forall id: nat :: id in installments ==> id in loans)
    }

    constructor ()
      ensures Valid()
      ensures customers == map[] && loans == map[] && installments == map[]
    {
      customers, loans, installments := map[], map[], map[];
      nextCustomerId, nextLoanId := 0, 0;
    }

    /** loanInstallmentRepository.findByLoanId. */
    function InstallmentsOf(loanId: nat): (stored: seq<Installment>)
      reads this
      ensures loanId in installments ==> stored == installments[loanId]
      ensures Valid() && loanId !in loans ==> stored == []
    {
      if loanId in installments then installments[loanId] else []
    }

    /** createCustomer: a new customer with the given names and limits, a missing limit
        read as 0. The limits are not checked against each other or against zero. */
    method CreateCustomer(name: string, surname: string, creditLimit: Option<real>, usedCreditLimit: Option<real>)
      returns (customer: Customer)
      requires Valid()
      modifies this
      ensures Valid()
      ensures customer.id == old(nextCustomerId) && customer.id !in old(customers)
      ensures customer.name == name && customer.surname == surname
      ensures customer.usedCreditLimit == (if usedCreditLimit.Some? then usedCreditLimit.value else 0.0)
      ensures customer.creditLimit == (if creditLimit.Some? then creditLimit.value else 0.0)
      ensures customers == old(customers)[customer.id := customer]
      ensures nextCustomerId == old(nextCustomerId) + 1
      ensures loans == old(loans) && installments == old(installments) && nextLoanId == old(nextLoanId)
    {
      customer := Customer(nextCustomerId, name, surname, creditLimit.GetOr(0.0), usedCreditLimit.GetOr(0.0));
      customers := customers[customer.id := customer];
      nextCustomerId := nextCustomerId + 1;
    }

    /** createInstallments: the installment batch of a new loan. */
    method CreateInstallments(installmentAmount: real, numberOfInstallments: nat, today: Date)
      returns (batch: seq<Installment>)
      requires ValidDate(today)
      ensures IsSchedule(batch, installmentAmount, numberOfInstallments, today)
    {
      batch := [];
      var dueDate := FirstOfNextMonth(today);
      var i := 0;
      while i < numberOfInstallments
        invariant 0 <= i <= numberOfInstallments
        invariant dueDate == Date(today.month + 1 + i, 1)
        invariant |batch| == i
        invariant forall j :: 0 <= j < i ==>
                    batch[j] == Installment(installmentAmount, 0.0, Date(today.month + 1 + j, 1), None, false)
      {
        batch := batch + [Installment(installmentAmount, 0.0, dueDate, None, false)];
        dueDate := PlusMonths(dueDate, 1);
        i := i + 1;
      }
    }

    /** createLoan. The checks run in order (customer, credit limit against the loan
        amount alone, installment count) before anything is stored. On success the loan
        is stored unpaid, the customer's used credit grows by the loan amount, and the
        loan gets a schedule of equal installments totalling loanAmount * interestRate. */
    method CreateLoan(customerId: nat, loanAmount: real, numberOfInstallment: int, interestRate: real, today: Date)
      returns (r: Result<Loan, CreditModuleException>)
      requires Valid() && ValidDate(today)
      requires loanAmount >= 0.0 && 0.1 <= interestRate <= 0.5
      modifies this
      ensures Valid()
      ensures customerId !in old(customers) ==> r == Failure(CreditModuleException(CustomerNotFound))
      ensures customerId in old(customers) && old(customers)[customerId].creditLimit < loanAmount
              ==> r == Failure(CreditModuleException(InsufficientCreditLimit))
      ensures customerId in old(customers) && old(customers)[customerId].creditLimit >= loanAmount
              && !IsValidInstallmentCount(numberOfInstallment)
              ==> r == Failure(CreditModuleException(InvalidNumberOfInstallments))
      ensures customerId in old(customers) && old(customers)[customerId].creditLimit >= loanAmount
              && IsValidInstallmentCount(numberOfInstallment)
              ==> r.Success?
      ensures r.Failure? ==> Raised(r.error.errorMessage)
      ensures r.Failure? ==>
                customers == old(customers) && loans == old(loans) && installments == old(installments)
                && nextLoanId == old(nextLoanId)
      ensures r.Success? ==>
                var customer := old(customers)[customerId];
                var loan := r.value;
                && loan == Loan(old(nextLoanId), customerId, loanAmount, numberOfInstallment, today, false)
                && loan.id !in old(loans)
                && loans == old(loans)[loan.id := loan]
                && nextLoanId == old(nextLoanId) + 1
                && customers == old(customers)[customerId := customer.(usedCreditLimit := customer.usedCreditLimit + loanAmount)]
                && loan.id in installments
                && installments == old(installments)[loan.id := installments[loan.id]]
                && IsSchedule(installments[loan.id], loanAmount * interestRate / numberOfInstallment as real,
                              numberOfInstallment, today)
      ensures nextCustomerId == old(nextCustomerId)
    {
      if customerId !in customers {
        return Failure(CreditModuleException(CustomerNotFound));
      }
      var customer := customers[customerId];
      if customer.creditLimit < loanAmount {
        return Failure(CreditModuleException(InsufficientCreditLimit));
      }
      if !IsValidInstallmentCount(numberOfInstallment) {
        return Failure(CreditModuleException(InvalidNumberOfInstallments));
      }
      var totalAmount := loanAmount * interestRate;
      var installmentAmount := totalAmount / numberOfInstallment as real;

      var loan := Loan(nextLoanId, customerId, loanAmount, numberOfInstallment, today, false);
      loans := loans[loan.id := loan];
      nextLoanId := nextLoanId + 1;

      customers := customers[customerId := customer.(usedCreditLimit := customer.usedCreditLimit + loanAmount)];

      var batch := CreateInstallments(installmentAmount, numberOfInstallment, today);
      installments := installments[loan.id := batch];
      return Success(loan);
    }

    /** listLoans: CUSTOMER_NOT_FOUND for an unknown customer, LOAN_NOT_FOUND for a
        customer without any loan (before filtering); otherwise the summaries of exactly
        the customer's loans that pass the supplied filters, in repository order. */
    function ListLoans(customerId: nat, numberOfInstallment: Option<int>, isPaid: Option<bool>)
      : (r: Result<seq<LoanSummary>, CreditModuleException>)
      reads this
      requires Valid()
      ensures customerId !in customers ==> r == Failure(CreditModuleException(CustomerNotFound))
      ensures customerId in customers && (forall id :: id in loans ==> loans[id].customerId != customerId)
              ==> r == Failure(CreditModuleException(LoanNotFound))
      ensures r.Failure? ==> Raised(r.error.errorMessage)
      ensures customerId in customers && (exists id :: id in loans && loans[id].customerId == customerId)
              ==> r.Success?
      ensures r.Success? ==> customerId in customers && exists id :: id in loans && loans[id].customerId == customerId
      ensures r.Success? ==>
                forall k :: 0 <= k < |r.value| ==>
                  && r.value[k].id in loans
                  && loans[r.value[k].id].customerId == customerId
                  && MatchesFilters(loans[r.value[k].id], numberOfInstallment, isPaid)
                  && r.value[k] == SummarizeLoan(loans[r.value[k].id])
      ensures r.Success? ==>
                forall id :: id in loans && loans[id].customerId == customerId
                             && MatchesFilters(loans[id], numberOfInstallment, isPaid)
                  ==> SummarizeLoan(loans[id]) in r.value
      ensures r.Success? ==> forall i, j :: 0 <= i < j < |r.value| ==> r.value[i].id < r.value[j].id
    {
      if customerId !in customers then Failure(CreditModuleException(CustomerNotFound))
      else
        var owned := LoansBelow(loans, customerId, nextLoanId);
        if |owned| == 0 then
          assert forall id :: id in loans && loans[id].customerId == customerId ==> loans[id] in owned;
          Failure(CreditModuleException(LoanNotFound))
        else
          assert owned[0] in owned;
          ListedLoans(loans, customerId, nextLoanId, numberOfInstallment, isPaid);
          Success(SummarizeLoans(ApplyFilters(owned, numberOfInstallment, isPaid)))
    }

    /** listInstallments: INSTALLMENT_NOT_FOUND when the loan has no installments;
        otherwise one summary per stored installment, in stored order, fields copied. */
    function ListInstallments(loanId: nat): (r: Result<seq<InstallmentSummary>, CreditModuleException>)
      reads this
      ensures r.Failure? <==> InstallmentsOf(loanId) == []
      ensures r.Failure? ==> r.error == CreditModuleException(InstallmentNotFound)
      ensures r.Failure? ==> Raised(r.error.errorMessage)
      ensures r.Success? ==>
                && |r.value| == |InstallmentsOf(loanId)|
                && forall k :: 0 <= k < |r.value| ==>
                     var inst := InstallmentsOf(loanId)[k];
                     r.value[k] == InstallmentSummary(inst.amount, inst.paidAmount, inst.dueDate,
                                                      inst.paymentDate, inst.isPaid)
    {
      var stored := InstallmentsOf(loanId);
      if |stored| == 0 then Failure(CreditModuleException(InstallmentNotFound))
      else Success(seq(|stored|, k requires 0 <= k < |stored| => SummarizeInstallment(stored[k])))
    }
  
    /** The allocation loop of payLoan: one pass over the candidates in order, paying
        each one whose adjusted amount the rest of the payment covers, with no early exit. */
    method AllocatePayment(stored: seq<Installment>, cs: seq<nat>, paymentAmount: real, today: Date)
      returns (updated: seq<Installment>, remainingAmount: real, paidCount: nat)
      requires InRange(stored, cs)
      ensures Allocation(updated, remainingAmount, paidCount)
           == Allocate(stored, cs, FinalAmounts(stored, cs, today), today, paymentAmount, |cs|)
    {
      ghost var fs := FinalAmounts(stored, cs, today);
      updated, remainingAmount, paidCount := stored, paymentAmount, 0;
      var k := 0;
      while k < |cs|
        invariant 0 <= k <= |cs|
        invariant Allocation(updated, remainingAmount, paidCount) == Allocate(stored, cs, fs, today, paymentAmount, k)
      {
        var i := cs[k];
        var finalAmount := AdjustedAmount(stored[i].amount, today, stored[i].dueDate);
        if remainingAmount >= finalAmount {
          updated := updated[i := Settle(stored[i], finalAmount, today)];
          remainingAmount := remainingAmount - finalAmount;
          paidCount := paidCount + 1;
        }
        k := k + 1;
      }
    }

    /** The closing step of payLoan: when the payment left every candidate paid, the loan
        is marked paid and its amount is taken off its owner's used credit. Nothing else
        changes, and nothing at all when the loan does not close. */
    method CloseIfPaidOff(loanId: nat, closes: bool)
      requires Valid() && loanId in loans
      modifies this
      ensures Valid()
      ensures nextCustomerId == old(nextCustomerId) && nextLoanId == old(nextLoanId)
      ensures installments == old(installments)
      ensures var loan := old(loans)[loanId];
              var owner := old(customers)[loan.customerId];
              && loans == old(loans)[loanId := loan.(isPaid := loan.isPaid || closes)]
              && customers == old(customers)[loan.customerId :=
                   ReleaseCredit(owner, loan.loanAmount, closes)]
    {
      var loan := loans[loanId];
      var owner := customers[loan.customerId];
      if closes {
        loans := loans[loanId := loan.(isPaid := true)];
        customers := customers[loan.customerId := ReleaseCredit(owner, loan.loanAmount, closes)];
      } else {
        assert loans == old(loans)[loanId := loan.(isPaid := loan.isPaid)];
        assert customers == old(customers)[loan.customerId := owner];
      }
    }

    /** payLoan. LOAN_NOT_FOUND for an unknown loan, NO_PAYABLE_INSTALLMENTS when no
        installment is unpaid and due before today plus three months. Otherwise the
        candidates, in stored order, each get one turn: a candidate is paid, for its
        adjusted amount, when what is left of the payment covers it. When every candidate
        is paid the loan is marked paid and its amount is released from the customer's
        used credit. The summary reports the counts and the unallocated rest. */
    method PayLoan(loanId: nat, paymentAmount: real, today: Date)
      returns (r: Result<PaymentSummary, CreditModuleException>)
      requires Valid() && ValidDate(today)
      requires paymentAmount > 0.0
      modifies this
      ensures Valid()
      ensures nextCustomerId == old(nextCustomerId) && nextLoanId == old(nextLoanId)
      ensures loanId !in old(loans) ==> r == Failure(CreditModuleException(LoanNotFound))
      ensures loanId in old(loans) && Candidates(old(InstallmentsOf(loanId)), today) == []
              ==> r == Failure(CreditModuleException(NoPayableInstallments))
      ensures loanId in old(loans) && Candidates(old(InstallmentsOf(loanId)), today) != [] ==> r.Success?
      ensures r.Failure? ==> Raised(r.error.errorMessage)
      ensures r.Failure? ==>
                customers == old(customers) && loans == old(loans) && installments == old(installments)
      ensures r.Success? ==>
                var stored := old(InstallmentsOf(loanId));
                var a := PaymentAllocation(stored, today, paymentAmount);
                var loan := old(loans)[loanId];
                var owner := old(customers)[loan.customerId];
                var closes := PaysOff(stored, today, paymentAmount);
                && loanId in old(loans) && Candidates(stored, today) != []
                && installments == old(installments)[loanId := a.installments]
                && loans == old(loans)[loanId := loan.(isPaid := loan.isPaid || closes)]
                && customers == old(customers)[loan.customerId :=
                     ReleaseCredit(owner, loan.loanAmount, closes)]
                && r.value == PaymentSummary(loanId, loan.loanAmount, loan.numberOfInstallment, a.paidCount,
                                             UnpaidCount(a.installments), a.remaining, today)
    {
      if loanId !in loans {
        return Failure(CreditModuleException(LoanNotFound));
      }
      var loan := loans[loanId];
      var stored := InstallmentsOf(loanId);
      var cs := Candidates(stored, today);
      if |cs| == 0 {
        return Failure(CreditModuleException(NoPayableInstallments));
      }

      var updated, remainingAmount, paidCount := AllocatePayment(stored, cs, paymentAmount, today);
      installments := installments[loanId := updated];

      var allInstallmentsPaid := AllPaid(updated, cs);
      assert allInstallmentsPaid == PaysOff(stored, today, paymentAmount);
      CloseIfPaidOff(loanId, allInstallmentsPaid);

      var unpaidInstallments := UnpaidCount(updated);
      return Success(PaymentSummary(loan.id, loan.loanAmount, loan.numberOfInstallment, paidCount,
                                    unpaidInstallments, remainingAmount, today));
    }
  }
}
