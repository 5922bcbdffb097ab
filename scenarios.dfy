/** The cases of RefactorThis.Domain.Tests/InvoicePaymentProcessorTests.cs,
    stated as verified methods that call the imperative service on fresh
    objects. Each returns, as a ghost out-parameter, how many times the
    invoice was saved. A payment left
    without an amount in a test has the default amount 0. */
module Scenarios {
  import opened Wrappers
  import opened Entities
  import opened Repositories
  import opened PaymentRules
  import opened Services

  method NoInvoiceFound() returns (r: Result<string, InvoiceError>, ghost saves: nat)
    ensures r == Err(NoMatchingInvoice)
    ensures ErrorMessage(r.error) == "There is no invoice matching this payment"
    ensures saves == 0
  {
    var repository := new InvoiceRepository();
    var service := new InvoiceService(repository);
    r := service.ProcessPayment(Payment("invalid", 0.0), None);
    saves := |repository.saved|;
  }

  method NoPaymentNeededScenario() returns (r: Result<string, InvoiceError>, ghost saves: nat)
    ensures r == Ok("no payment needed")
    ensures saves == 0
  {
    var repository := new InvoiceRepository();
    var service := new InvoiceService(repository);
    var invoice := new Invoice(0.0, 0.0, 0.0, [], Standard);
    r := service.ProcessPayment(Payment("test-ref", 0.0), Some(invoice));
    saves := |repository.saved|;
  }

  method AlreadyFullyPaidScenario() returns (r: Result<string, InvoiceError>, ghost saves: nat)
    ensures r == Ok("invoice was already fully paid")
    ensures saves == 0
  {
    var repository := new InvoiceRepository();
    var service := new InvoiceService(repository);
    var invoice := new Invoice(10.0, 10.0, 0.0, [Payment("", 10.0)], Standard);
    r := service.ProcessPayment(Payment("test-ref", 0.0), Some(invoice));
    saves := |repository.saved|;
  }

  method ExceedsRemainingScenario() returns (r: Result<string, InvoiceError>, ghost saves: nat)
    ensures r == Ok("the payment is greater than the partial amount remaining")
    ensures saves == 0
  {
    var repository := new InvoiceRepository();
    var service := new InvoiceService(repository);
    var invoice := new Invoice(10.0, 5.0, 0.0, [Payment("", 5.0)], Standard);
    r := service.ProcessPayment(Payment("test-ref", 6.0), Some(invoice));
    saves := |repository.saved|;
  }

  method ExceedsInvoiceAmountScenario() returns (r: Result<string, InvoiceError>, ghost saves: nat)
    ensures r == Ok("the payment is greater than the invoice amount")
    ensures saves == 0
  {
    var repository := new InvoiceRepository();
    var service := new InvoiceService(repository);
    var invoice := new Invoice(5.0, 0.0, 0.0, [], Standard);
    r := service.ProcessPayment(Payment("test-ref", 6.0), Some(invoice));
    saves := |repository.saved|;
  }

  /** Standard final partial payment: the tax is left as it was (it starts
      at 0.7 here rather than 0, so that "unchanged" is visible). */
  method FinalPartialScenario() returns (r: Result<string, InvoiceError>, tax: real, ghost saves: nat)
    ensures r == Ok("final partial payment received, invoice is now fully paid")
    ensures tax == 0.7
    ensures saves == 1
  {
    var repository := new InvoiceRepository();
    var service := new InvoiceService(repository);
    var invoice := new Invoice(10.0, 5.0, 0.7, [Payment("", 5.0)], Standard);
    r := service.ProcessPayment(Payment("test-ref", 5.0), Some(invoice));
    tax := invoice.taxAmount;
    saves := |repository.saved|;
  }

  /** First full payment of 10: tax 1.4. */
  method FirstFullPaymentScenario() returns (r: Result<string, InvoiceError>, tax: real, paid: real, ghost saves: nat)
    ensures r == Ok("invoice is now fully paid")
    ensures tax == 1.4 && paid == 10.0
    ensures saves == 1
  {
    var repository := new InvoiceRepository();
    var service := new InvoiceService(repository);
    var invoice := new Invoice(10.0, 0.0, 0.0, [], Standard);
    r := service.ProcessPayment(Payment("test-ref", 10.0), Some(invoice));
    tax, paid := invoice.taxAmount, invoice.amountPaid;
    saves := |repository.saved|;
  }

  method AnotherPartialScenario() returns (r: Result<string, InvoiceError>, paid: real, ghost saves: nat)
    ensures r == Ok("another partial payment received, still not fully paid")
    ensures paid == 6.0
    ensures saves == 1
  {
    var repository := new InvoiceRepository();
    var service := new InvoiceService(repository);
    var invoice := new Invoice(10.0, 5.0, 0.0, [Payment("", 5.0)], Standard);
    r := service.ProcessPayment(Payment("test-ref", 1.0), Some(invoice));
    paid := invoice.amountPaid;
    saves := |repository.saved|;
  }

  method FirstPartialScenario() returns (r: Result<string, InvoiceError>, tax: real, ghost saves: nat)
    ensures r == Ok("invoice is now partially paid")
    ensures tax == 0.14
    ensures saves == 1
  {
    var repository := new InvoiceRepository();
    var service := new InvoiceService(repository);
    var invoice := new Invoice(10.0, 0.0, 0.0, [], Standard);
    r := service.ProcessPayment(Payment("test-ref", 1.0), Some(invoice));
    tax := invoice.taxAmount;
    saves := |repository.saved|;
  }

  /** Three calls against one Commercial invoice: each call decides from the
      state the previous one left, the third finds the invoice settled, and
      the invoice is saved once per accepted call. */
  method CommercialSettlingScenario()
    returns (first: Result<string, InvoiceError>, second: Result<string, InvoiceError>,
             third: Result<string, InvoiceError>, tax: real, ghost saves: nat)
    ensures first == Ok("invoice is now partially paid")
    ensures second == Ok("final partial payment received, invoice is now fully paid")
    ensures third == Ok("invoice was already fully paid")
    ensures tax == 1.4
    ensures saves == 2
  {
    var repository := new InvoiceRepository();
    var service := new InvoiceService(repository);
    var invoice := new Invoice(10.0, 0.0, 0.0, [], Commercial);
    first := service.ProcessPayment(Payment("R1", 4.0), Some(invoice));
    second := service.ProcessPayment(Payment("R1", 6.0), Some(invoice));
    assert invoice.payments == [Payment("R1", 4.0), Payment("R1", 6.0)];
    third := service.ProcessPayment(Payment("R1", 1.0), Some(invoice));
    tax := invoice.taxAmount;
    saves := |repository.saved|;
  }

  /** A later payment on an invoice whose type value names no enum member
      raises the unknown-type error, and the invoice is neither changed nor
      saved. */
  method UnknownTypeScenario() returns (r: Result<string, InvoiceError>, paid: real, ghost saves: nat)
    ensures r == Err(UnknownInvoiceType(2))
    ensures ErrorMessage(r.error) == "Unknown invoice type: 2"
    ensures paid == 5.0
    ensures saves == 0
  {
    var repository := new InvoiceRepository();
    var service := new InvoiceService(repository);
    var invoice := new Invoice(10.0, 5.0, 0.0, [Payment("", 5.0)], Other(2));
    r := service.ProcessPayment(Payment("test-ref", 1.0), Some(invoice));
    paid := invoice.amountPaid;
    saves := |repository.saved|;
  }
}
