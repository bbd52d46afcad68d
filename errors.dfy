/** The error catalog (enums/ErrorMessage.java) and the exception built from it
    (exception/CreditModuleException.java). */
module Errors {

  /** The eight catalog entries, in declaration order. */
  datatype ErrorMessage =
    | CustomerNotFound
    | InsufficientCreditLimit
    | InvalidNumberOfInstallments
    | LoanNotFound
    | InstallmentNotFound
    | LoanAlreadyPaid
    | InvalidPaymentAmount
    | NoPayableInstallments
  {
    /** The fixed numeric code of the entry. */
    function ErrorCode(): (code: int)
      ensures 1001 <= code <= 1008
    {
      match this
      case CustomerNotFound => 1001
      case InsufficientCreditLimit => 1002
      case InvalidNumberOfInstallments => 1003
      case LoanNotFound => 1004
      case InstallmentNotFound => 1005
      case LoanAlreadyPaid => 1006
      case InvalidPaymentAmount => 1007
      case NoPayableInstallments => 1008
    }

    /** The fixed message of the entry. */
    function Message(): (msg: string)
      ensures |msg| > 0
    {
      match this
      case CustomerNotFound => "Customer not found with given id."
      case InsufficientCreditLimit => "Customer does not have enough credit limit for the loan."
      case InvalidNumberOfInstallments => "Number of installments must be one of the following: 6, 9, 12, 24."
      case LoanNotFound => "Loan not found for given user."
      case InstallmentNotFound => "Installment not found for given loanId."
      case LoanAlreadyPaid => "Loan with given ID already paid."
      case InvalidPaymentAmount => "Payment amount cannot be less than loan amount."
      case NoPayableInstallments => "There are no payable installments."
    }
  }

  /** The catalog in declaration order. */
  const Catalog: seq<ErrorMessage> := [
    CustomerNotFound, InsufficientCreditLimit, InvalidNumberOfInstallments, LoanNotFound,
    InstallmentNotFound, LoanAlreadyPaid, InvalidPaymentAmount, NoPayableInstallments
  ]

  /** The catalog is closed: it has eight entries and every error is one of them,
      and the codes run from 1001 upwards in declaration order. */
  lemma CatalogInDeclarationOrder()
    ensures |Catalog| == 8
    ensures forall e: ErrorMessage :: e in Catalog
    ensures forall i :: 0 <= i < |Catalog| ==> Catalog[i].ErrorCode() == 1001 + i
  {
    forall e: ErrorMessage ensures e in Catalog {
      match e
      case CustomerNotFound => assert Catalog[0] == e;
      case InsufficientCreditLimit => assert Catalog[1] == e;
      case InvalidNumberOfInstallments => assert Catalog[2] == e;
      case LoanNotFound => assert Catalog[3] == e;
      case InstallmentNotFound => assert Catalog[4] == e;
      case LoanAlreadyPaid => assert Catalog[5] == e;
      case InvalidPaymentAmount => assert Catalog[6] == e;
      case NoPayableInstallments => assert Catalog[7] == e;
    }
  }

  /** No two catalog entries share a code, so a code names exactly one entry. */
  lemma CodesDistinct(e1: ErrorMessage, e2: ErrorMessage)
    ensures e1.ErrorCode() == e2.ErrorCode() <==> e1 == e2
  {
  }

  /** The entries that some service operation raises (1001-1005 and 1008). */
  predicate Raised(e: ErrorMessage) {
    !e.LoanAlreadyPaid? && !e.InvalidPaymentAmount?
  }

  /** The exception every domain failure is reported with. It is built from
      exactly one catalog entry and reports that entry's code and message. */
  datatype CreditModuleException = CreditModuleException(errorMessage: ErrorMessage) {

    /** The code reported to the client. */
    function GetErrorCode(): (code: int)
      ensures code == errorMessage.ErrorCode()
      ensures 1001 <= code <= 1008
    {
      errorMessage.ErrorCode()
    }

    /** The message reported to the client; also the exception's own message. */
    function GetErrorMessage(): (msg: string)
      ensures msg == errorMessage.Message()
    {
      errorMessage.Message()
    }
  }

  /** The reported code determines the catalog entry the exception was built from. */
  lemma ReportedCodeIdentifiesEntry(x: CreditModuleException, y: CreditModuleException)
    ensures x.GetErrorCode() == y.GetErrorCode() <==> x == y
  {
  }
}
