/** The persisted records (entity/Customer, entity/Loan.java, entity/LoanInstallment.java)
    and the response shapes the service returns (the response DTOs under dto/response). */
module Entities {
  import opened Wrappers
  import opened Calendar

  /** A customer: the name, the approved credit limit and the credit currently committed to loans. */
  datatype Customer = Customer(id: nat, name: string, surname: string, creditLimit: real, usedCreditLimit: real)

  /** A loan; `customerId` is the owning customer. */
  datatype Loan = Loan(id: nat, customerId: nat, loanAmount: real, numberOfInstallment: int, createDate: Date, isPaid: bool)

  /** One installment of a loan. Its loan is the key it is stored under. */
  datatype Installment = Installment(amount: real, paidAmount: real, dueDate: Date, paymentDate: Option<Date>, isPaid: bool)

  /** LoanResponseDTO. */
  datatype LoanSummary = LoanSummary(id: nat, loanAmount: real, numberOfInstallment: int, createDate: Date, isPaid: bool)

  /** LoanInstallmentResponseDTO. */
  datatype InstallmentSummary = InstallmentSummary(amount: real, paidAmount: real, dueDate: Date, paymentDate: Option<Date>, isPaid: bool)

  /** LoanPaymentResponseDTO. */
  datatype PaymentSummary = PaymentSummary(
    loanId: nat, loanAmount: real, totalInstallments: int, paidInstallments: nat,
    unpaidInstallments: nat, remainingAmount: real, paymentDate: Date)

  function SummarizeLoan(l: Loan): LoanSummary {
    LoanSummary(l.id, l.loanAmount, l.numberOfInstallment, l.createDate, l.isPaid)
  }

  function SummarizeInstallment(inst: Installment): InstallmentSummary {
    InstallmentSummary(inst.amount, inst.paidAmount, inst.dueDate, inst.paymentDate, inst.isPaid)
  }
}
