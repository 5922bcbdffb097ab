/** InvoiceService (RefactorThis.Application/Services/InvoiceService.cs):
    one method per method of the source. Each method changes the invoice in
    place and saves it through the repository, and each is proved to do what
    the rules in module PaymentRules say: the returned message is the message
    of the decided outcome, the invoice's new state is the rules' new state,
    and the save log grows by exactly the saved state on accepted payments
    and not at all otherwise. */
module Services {
  import opened Wrappers
  import opened Entities
  import opened Repositories
  import opened PaymentRules

  /** The state of a fetch result, if an invoice was found. */
  function Snapshot(fetched: Option<Invoice>): Option<InvoiceState>
    reads if fetched.Some? then {fetched.value} else {}
  {
    match fetched
    case None => None
    case Some(inv) => Some(inv.State())
  }

  /** The save log after a call that decided d and left the invoice in
      state s. */
  ghost function SavedAfter(log: seq<InvoiceState>, d: Result<Outcome, InvoiceError>, s: InvoiceState): seq<InvoiceState>
  {
    if Applies(d) then log + [s] else log
  }

  class InvoiceService {
    const repository: InvoiceRepository

    constructor (repository: InvoiceRepository)
      ensures this.repository == repository
    {
      this.repository := repository;
    }

    /** Apply a payment to the invoice the repository returned for its
        reference (None when no invoice matches). */
    method ProcessPayment(payment: Payment, fetched: Option<Invoice>)
      returns (r: Result<string, InvoiceError>)
      modifies repository, if fetched.Some? then {fetched.value} else {}
      ensures r == Respond(Process(old(Snapshot(fetched)), payment))
      ensures fetched.None? ==> repository.saved == old(repository.saved)
      ensures fetched.Some? ==>
        && fetched.value.State() == Applied(old(fetched.value.State()), payment)
        && repository.saved == if Applies(Decide(old(fetched.value.State()), payment))
                               then old(repository.saved) + [fetched.value.State()]
                               else old(repository.saved)
    {
      if fetched.None? {
        r := Err(NoMatchingInvoice);
        return;
      }
      var inv := fetched.value;
      if inv.amount == 0.0 {
        r := HandleZeroAmountInvoice(inv);
      } else {
        r := HandleNormalInvoice(inv, payment);
      }
    }

    /** A zero-amount invoice; reads it and changes nothing. */
    method HandleZeroAmountInvoice(inv: Invoice) returns (r: Result<string, InvoiceError>)
      ensures r == Respond(ZeroAmountOutcome(inv.State()))
    {
      if |inv.payments| == 0 {
        r := Ok(Message(NoPaymentNeeded));
      } else {
        r := Err(InvalidState);
      }
    }

    method HandleNormalInvoice(inv: Invoice, payment: Payment) returns (r: Result<string, InvoiceError>)
      modifies inv, repository
      ensures r == Respond(TypeDispatch(old(inv.State()), NormalOutcome(old(inv.State()), payment)))
      ensures inv.State() ==
        After(old(inv.State()), payment, TypeDispatch(old(inv.State()), NormalOutcome(old(inv.State()), payment)))
      ensures repository.saved ==
        SavedAfter(old(repository.saved),
                   TypeDispatch(old(inv.State()), NormalOutcome(old(inv.State()), payment)), inv.State())
    {
      if |inv.payments| > 0 {
        r := HandleInvoiceWithExistingPayments(inv, payment);
      } else {
        var message := HandleInvoiceWithNoExistingPayments(inv, payment);
        r := Ok(message);
      }
    }

    method HandleInvoiceWithExistingPayments(inv: Invoice, payment: Payment)
      returns (r: Result<string, InvoiceError>)
      modifies inv, repository
      ensures r == Respond(TypeDispatch(old(inv.State()), ExistingPaymentsOutcome(old(inv.State()), payment)))
      ensures inv.State() ==
        After(old(inv.State()), payment,
              TypeDispatch(old(inv.State()), ExistingPaymentsOutcome(old(inv.State()), payment)))
      ensures repository.saved ==
        SavedAfter(old(repository.saved),
                   TypeDispatch(old(inv.State()), ExistingPaymentsOutcome(old(inv.State()), payment)),
                   inv.State())
    {
      var sumSoFar := SumAmounts(inv.payments);
      var alreadyFull := sumSoFar == inv.amount && sumSoFar != 0.0;
      var remaining := inv.amount - inv.amountPaid;
      var overPay := payment.amount > remaining;
      var finalPartial := payment.amount == remaining;
      if alreadyFull {
        r := Ok(Message(AlreadyFullyPaid));
      } else if overPay {
        r := Ok(Message(ExceedsRemaining));
      } else if finalPartial {
        r := FinalPartialPayment(inv, payment);
      } else {
        r := AnotherPartialPayment(inv, payment);
      }
    }

    method HandleInvoiceWithNoExistingPayments(inv: Invoice, payment: Payment) returns (message: string)
      modifies inv, repository
      ensures message == Message(NoExistingPaymentsOutcome(old(inv.State()), payment))
      ensures inv.State() ==
        Effect(old(inv.State()), payment, NoExistingPaymentsOutcome(old(inv.State()), payment))
      ensures repository.saved ==
        SavedAfter(old(repository.saved), Ok(NoExistingPaymentsOutcome(old(inv.State()), payment)), inv.State())
    {
      if payment.amount > inv.amount {
        message := Message(ExceedsInvoiceAmount);
      } else if payment.amount == inv.amount {
        message := FirstFullPayment(inv, payment);
      } else {
        message := FirstPartialPayment(inv, payment);
      }
    }

    method FirstFullPayment(inv: Invoice, payment: Payment) returns (message: string)
      modifies inv, repository
      ensures message == Message(FullyPaid)
      ensures inv.State() == FirstPayment(old(inv.State()), payment)
      ensures repository.saved == old(repository.saved) + [inv.State()]
    {
      inv.amountPaid := payment.amount;
      inv.taxAmount := Tax(payment.amount);
      inv.payments := inv.payments + [payment];
      repository.SaveInvoice(inv);
      message := Message(FullyPaid);
    }

    method FirstPartialPayment(inv: Invoice, payment: Payment) returns (message: string)
      modifies inv, repository
      ensures message == Message(PartiallyPaid)
      ensures inv.State() == FirstPayment(old(inv.State()), payment)
      ensures repository.saved == old(repository.saved) + [inv.State()]
    {
      inv.amountPaid := payment.amount;
      inv.taxAmount := Tax(payment.amount);
      inv.payments := inv.payments + [payment];
      repository.SaveInvoice(inv);
      message := Message(PartiallyPaid);
    }

    method AnotherPartialPayment(inv: Invoice, payment: Payment) returns (r: Result<string, InvoiceError>)
      modifies inv, repository
      ensures r == Respond(TypeDispatch(old(inv.State()), StillPartiallyPaid))
      ensures inv.State() == SubsequentPayment(old(inv.State()), payment)
      ensures repository.saved ==
        SavedAfter(old(repository.saved), TypeDispatch(old(inv.State()), StillPartiallyPaid), inv.State())
    {
      match inv.invoiceType
      case Standard =>
        var message := AddStandardPartial(inv, payment, Message(StillPartiallyPaid));
        r := Ok(message);
      case Commercial =>
        var message := AddCommercialPartial(inv, payment, Message(StillPartiallyPaid));
        r := Ok(message);
      case Other(code) =>
        r := Err(UnknownInvoiceType(code));
    }

    method FinalPartialPayment(inv: Invoice, payment: Payment) returns (r: Result<string, InvoiceError>)
      modifies inv, repository
      ensures r == Respond(TypeDispatch(old(inv.State()), FinallyPaid))
      ensures inv.State() == SubsequentPayment(old(inv.State()), payment)
      ensures repository.saved ==
        SavedAfter(old(repository.saved), TypeDispatch(old(inv.State()), FinallyPaid), inv.State())
    {
      match inv.invoiceType
      case Standard =>
        var message := AddStandardPartial(inv, payment, Message(FinallyPaid));
        r := Ok(message);
      case Commercial =>
        var message := AddCommercialPartial(inv, payment, Message(FinallyPaid));
        r := Ok(message);
      case Other(code) =>
        r := Err(UnknownInvoiceType(code));
    }

    method AddStandardPartial(inv: Invoice, payment: Payment, text: string) returns (message: string)
      modifies inv, repository
      ensures message == text
      ensures inv.State() == StandardPartial(old(inv.State()), payment)
      ensures repository.saved == old(repository.saved) + [inv.State()]
    {
      inv.amountPaid := inv.amountPaid + payment.amount;
      inv.payments := inv.payments + [payment];
      repository.SaveInvoice(inv);
      message := text;
    }

    method AddCommercialPartial(inv: Invoice, payment: Payment, text: string) returns (message: string)
      modifies inv, repository
      ensures message == text
      ensures inv.State() == CommercialPartial(old(inv.State()), payment)
      ensures repository.saved == old(repository.saved) + [inv.State()]
    {
      inv.amountPaid := inv.amountPaid + payment.amount;
      inv.taxAmount := inv.taxAmount + Tax(payment.amount);
      inv.payments := inv.payments + [payment];
      repository.SaveInvoice(inv);
      message := text;
    }
  }
}
