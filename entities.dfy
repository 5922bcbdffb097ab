/** The domain entities of RefactorThis.Domain/Entities/Invoice.cs and the
    payment record the service appends to an invoice's history. */
module Entities {

  /** An underlying enum value that names no declared member
      (Standard is 0, Commercial is 1). */
  type OutOfRange = c: int | c != 0 && c != 1 witness 2

  /** The invoice types. A C# enum variable can hold any value of its
      underlying type, so besides the two declared members an invoice can
      carry an out-of-range value, which `Other` records. */
  datatype InvoiceType = Standard | Commercial | Other(code: OutOfRange)

  /** A payment: the reference that names its invoice, and its amount.
      Decimal amounts are exact, so they are modelled as reals. */
  datatype Payment = Payment(reference: string, amount: real)

  /** A value snapshot of every field of an invoice that the service reads
      or writes. The opaque invoice id is not part of it. */
  datatype InvoiceState = InvoiceState(
    amount: real,
    amountPaid: real,
    taxAmount: real,
    payments: seq<Payment>,
    invoiceType: InvoiceType)

  /** The mutable invoice entity; the service updates its fields in place. */
  class Invoice {
    var amount: real
    var amountPaid: real
    var taxAmount: real
    var payments: seq<Payment>
    var invoiceType: InvoiceType

    /** The invoice's current field values as one value. */
    function State(): InvoiceState
      reads this
    {
      InvoiceState(amount, amountPaid, taxAmount, payments, invoiceType)
    }

    constructor (amount: real, amountPaid: real, taxAmount: real,
                 payments: seq<Payment>, invoiceType: InvoiceType)
      ensures State() == InvoiceState(amount, amountPaid, taxAmount, payments, invoiceType)
    {
      this.amount := amount;
      this.amountPaid := amountPaid;
      this.taxAmount := taxAmount;
      this.payments := payments;
      this.invoiceType := invoiceType;
    }
  }
}
