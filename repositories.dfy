/** The storage collaborator, reduced to what the payment service can
    observe of it. Fetching is modelled by the caller handing the fetch
    result to the service; saving appends a snapshot of the saved invoice to
    a ghost log, so that "saved exactly once" and "never saved" can be
    stated. */
module Repositories {
  import opened Entities

  class InvoiceRepository {
    /** Every invoice state passed to SaveInvoice, oldest first. */
    ghost var saved: seq<InvoiceState>

    constructor ()
      ensures saved == []
    {
      saved := [];
    }

    /** Persists the invoice's current state. */
    method SaveInvoice(invoice: Invoice)
      modifies this
      ensures saved == old(saved) + [invoice.State()]
    {
      saved := saved + [invoice.State()];
    }
  }
}
