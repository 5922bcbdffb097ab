/** The payment-application rules of InvoiceService as pure functions over an
    invoice snapshot: which outcome a payment gets, which error it raises, and
    what the invoice looks like afterwards. The imperative service in
    module Services is proved to follow these functions; the lemmas here
    state what the rules guarantee across calls. */
module PaymentRules {
  import opened Wrappers
  import opened Entities

  /** The eight outcomes the service can return. */
  datatype Outcome =
    | NoPaymentNeeded
    | AlreadyFullyPaid
    | ExceedsRemaining
    | ExceedsInvoiceAmount
    | FullyPaid
    | PartiallyPaid
    | StillPartiallyPaid
    | FinallyPaid

  /** The error conditions the service raises. */
  datatype InvoiceError =
    | NoMatchingInvoice
    | InvalidState
    | UnknownInvoiceType(code: int)

  /** The exact outcome strings of the public contract. */
  function Message(o: Outcome): string
  {
    match o
    case NoPaymentNeeded => "no payment needed"
    case AlreadyFullyPaid => "invoice was already fully paid"
    case ExceedsRemaining => "the payment is greater than the partial amount remaining"
    case ExceedsInvoiceAmount => "the payment is greater than the invoice amount"
    case FullyPaid => "invoice is now fully paid"
    case PartiallyPaid => "invoice is now partially paid"
    case StillPartiallyPaid => "another partial payment received, still not fully paid"
    case FinallyPaid => "final partial payment received, invoice is now fully paid"
  }

  /** The exact messages of the errors raised. The unknown-type message
      ends in the decimal notation of the type value: a minus sign exactly
      when the value is negative, then digits without leading zeros that
      denote its magnitude. */
  function ErrorMessage(e: InvoiceError): (r: string)
    ensures e.UnknownInvoiceType? ==>
      && |r| > 22
      && r[..22] == "Unknown invoice type: "
      && (r[22] == '-' <==> e.code < 0)
      && var digits := if e.code < 0 then r[23..] else r[22..];
         && Decimal(digits)
         && DigitsValue(digits) == (if e.code < 0 then -e.code else e.code)
  {
    match e
    case NoMatchingInvoice => "There is no invoice matching this payment"
    case InvalidState => "The invoice is in an invalid state, it has an amount of 0 but has payments"
    case UnknownInvoiceType(c) =>
      var prefix := "Unknown invoice type: ";
      var text := IntToString(c);
      assert (prefix + text)[..22] == prefix && (prefix + text)[22..] == text;
      prefix + text
  }

  predicate IsDigit(c: char)
  {
    '0' <= c <= '9'
  }

  /** The value of a decimal digit. */
  function DigitValue(c: char): int
  {
    c as int - '0' as int
  }

  /** The number a string of decimal digits denotes, most significant
      digit first. */
  function DigitsValue(r: string): int
    requires forall i :: 0 <= i < |r| ==> IsDigit(r[i])
  {
    if r == [] then 0 else 10 * DigitsValue(r[..|r| - 1]) + DigitValue(r[|r| - 1])
  }

  /** A well-formed decimal numeral: non-empty, digits only, and no leading
      zero unless it is the single digit 0. */
  predicate Decimal(r: string)
  {
    && |r| > 0
    && (forall i :: 0 <= i < |r| ==> IsDigit(r[i]))
    && (|r| == 1 || r[0] != '0')
  }

  /** The decimal digit d. */
  function DigitChar(d: nat): (c: char)
    requires d < 10
    ensures IsDigit(c) && DigitValue(c) == d
  {
    ('0' as int + d) as char
  }

  /** The decimal notation of n, without leading zeros. */
  function NatToString(n: nat): (r: string)
    ensures Decimal(r) && DigitsValue(r) == n
    ensures n < 10 <==> |r| == 1
    decreases n
  {
    if n < 10 then [DigitChar(n)]
    else
      var high := NatToString(n / 10);
      var r := high + [DigitChar(n % 10)];
      assert r[..|r| - 1] == high;
      assert |high| == 1 ==> DigitsValue(high) == DigitValue(high[0]) by {
        if |high| == 1 {
          assert high[..0] == [];
        }
      }
      r
  }

  /** The decimal notation of i, which is how an enum value that names no
      member is formatted. */
  function IntToString(i: int): (r: string)
    ensures |r| > 0 && (r[0] == '-' <==> i < 0)
    ensures i < 0 ==> Decimal(r[1..]) && DigitsValue(r[1..]) == -i
    ensures i >= 0 ==> Decimal(r) && DigitsValue(r) == i
  {
    if i < 0 then
      var digits := NatToString(-i);
      assert ("-" + digits)[1..] == digits;
      "-" + digits
    else NatToString(i)
  }

  /** Distinct outcomes have distinct messages, so a caller can tell every
      outcome from the returned string alone. */
  lemma MessageInjective(o1: Outcome, o2: Outcome)
    ensures Message(o1) == Message(o2) ==> o1 == o2
  {
  }

  /** The outcomes that apply the payment to the invoice. */
  predicate Accepted(o: Outcome)
  {
    o == FullyPaid || o == PartiallyPaid || o == StillPartiallyPaid || o == FinallyPaid
  }

  /** The outcomes after which the invoice is fully paid. */
  predicate Settles(o: Outcome)
  {
    o == FullyPaid || o == FinallyPaid
  }

  /** A decision that applies the payment (and saves the invoice). */
  predicate Applies(d: Result<Outcome, InvoiceError>)
  {
    d.Ok? && Accepted(d.value)
  }

  /** The 14% tax rate. */
  const TaxRate: real := 0.14

  function Tax(x: real): real
  {
    x * TaxRate
  }

  /** The sum of the amounts of a payment history; a history of
      non-negative payments has a non-negative sum. */
  function SumAmounts(ps: seq<Payment>): (r: real)
    ensures (forall i :: 0 <= i < |ps| ==> ps[i].amount >= 0.0) ==> r >= 0.0
  {
    if ps == [] then 0.0 else ps[0].amount + SumAmounts(ps[1..])
  }

  lemma {:induction false} SumAmountsAppend(ps: seq<Payment>, p: Payment)
    ensures SumAmounts(ps + [p]) == SumAmounts(ps) + p.amount
  {
    if ps == [] {
      assert [] + [p] == [p];
    } else {
      assert (ps + [p])[1..] == ps[1..] + [p];
      SumAmountsAppend(ps[1..], p);
    }
  }

  /** What is left to pay, read from the running total (not from the
      history). */
  function Remaining(s: InvoiceState): (r: real)
    ensures Consistent(s) && s.payments != [] ==> r == s.amount - SumAmounts(s.payments)
  {
    s.amount - s.amountPaid
  }

  /** "Already fully paid", read from the payment history (not from the
      running total). */
  predicate AlreadyFull(s: InvoiceState)
    ensures AlreadyFull(s) ==> s.payments != [] && s.amount != 0.0
  {
    SumAmounts(s.payments) == s.amount && SumAmounts(s.payments) != 0.0
  }

  // ---------------------------------------------------------------------
  //  The decision
  // ---------------------------------------------------------------------

  /** A zero-amount invoice: nothing is needed unless payments were recorded,
      which is an invalid state. */
  function ZeroAmountOutcome(s: InvoiceState): (r: Result<Outcome, InvoiceError>)
    ensures r.Ok? <==> s.payments == []
    ensures r.Ok? ==> r.value == NoPaymentNeeded
    ensures r.Err? ==> r.error == InvalidState
  {
    if |s.payments| == 0 then Ok(NoPaymentNeeded) else Err(InvalidState)
  }

  /** The first payment on an invoice, compared with the whole amount. */
  function NoExistingPaymentsOutcome(s: InvoiceState, p: Payment): (o: Outcome)
    ensures o == ExceedsInvoiceAmount <==> p.amount > s.amount
    ensures o == FullyPaid <==> p.amount == s.amount
    ensures o == PartiallyPaid <==> p.amount < s.amount
  {
    if p.amount > s.amount then ExceedsInvoiceAmount
    else if p.amount == s.amount then FullyPaid
    else PartiallyPaid
  }

  /** A later payment: the history sum decides "already fully paid" first,
      then the payment is compared with the remaining amount. */
  function ExistingPaymentsOutcome(s: InvoiceState, p: Payment): (o: Outcome)
    ensures o == AlreadyFullyPaid <==> AlreadyFull(s)
    ensures o == ExceedsRemaining <==> !AlreadyFull(s) && p.amount > Remaining(s)
    ensures o == FinallyPaid <==> !AlreadyFull(s) && p.amount == Remaining(s)
    ensures o == StillPartiallyPaid <==> !AlreadyFull(s) && p.amount < Remaining(s)
  {
    var sumSoFar := SumAmounts(s.payments);
    var alreadyFull := sumSoFar == s.amount && sumSoFar != 0.0;
    var remaining := s.amount - s.amountPaid;
    if alreadyFull then AlreadyFullyPaid
    else if p.amount > remaining then ExceedsRemaining
    else if p.amount == remaining then FinallyPaid
    else StillPartiallyPaid
  }

  /** A non-zero invoice: first-payment rules on an empty history, otherwise
      the later-payment rules. */
  function NormalOutcome(s: InvoiceState, p: Payment): (o: Outcome)
    ensures s.payments == [] <==> o in {ExceedsInvoiceAmount, FullyPaid, PartiallyPaid}
    ensures o != NoPaymentNeeded
  {
    if |s.payments| > 0 then ExistingPaymentsOutcome(s, p)
    else NoExistingPaymentsOutcome(s, p)
  }

  /** The later-payment outcomes, which go through the type dispatch. */
  predicate LaterPayment(o: Outcome)
  {
    o == FinallyPaid || o == StillPartiallyPaid
  }

  /** The type dispatch of the later-payment helpers: an out-of-range type
      raises once the payment has been classified as a later payment. */
  function TypeDispatch(s: InvoiceState, o: Outcome): (r: Result<Outcome, InvoiceError>)
    ensures r.Err? <==> LaterPayment(o) && s.invoiceType.Other?
    ensures r.Ok? ==> r.value == o
    ensures r.Err? ==> r.error == UnknownInvoiceType(s.invoiceType.code)
  {
    if LaterPayment(o) && s.invoiceType.Other? then Err(UnknownInvoiceType(s.invoiceType.code))
    else Ok(o)
  }

  /** The decision on an invoice that was found. */
  function Decide(s: InvoiceState, p: Payment): (r: Result<Outcome, InvoiceError>)
    ensures r == Err(InvalidState) <==> s.amount == 0.0 && s.payments != []
    ensures r == Ok(NoPaymentNeeded) <==> s.amount == 0.0 && s.payments == []
    ensures r.Err? && r.error.UnknownInvoiceType? <==>
      && s.amount != 0.0 && s.payments != [] && s.invoiceType.Other?
      && !AlreadyFull(s) && p.amount <= Remaining(s)
    ensures r.Err? ==> r.error == InvalidState || r.error.UnknownInvoiceType?
  {
    if s.amount == 0.0 then ZeroAmountOutcome(s) else TypeDispatch(s, NormalOutcome(s, p))
  }

  /** The whole call, given what the repository returned for the payment's
      reference. */
  function Process(fetched: Option<InvoiceState>, p: Payment): (r: Result<Outcome, InvoiceError>)
    ensures r == Err(NoMatchingInvoice) <==> fetched.None?
  {
    match fetched
    case None => Err(NoMatchingInvoice)
    case Some(s) => Decide(s, p)
  }

  /** What the caller receives: the outcome's message, or the error. */
  function Respond(d: Result<Outcome, InvoiceError>): Result<string, InvoiceError>
  {
    match d
    case Ok(o) => Ok(Message(o))
    case Err(e) => Err(e)
  }

  // ---------------------------------------------------------------------
  //  The mutations
  // ---------------------------------------------------------------------

  /** First full or partial payment: the running total and the tax are
      overwritten with the payment and its tax, whatever the type. On an
      empty history this starts a consistent history under the tax policy. */
  function FirstPayment(s: InvoiceState, p: Payment): (r: InvoiceState)
    ensures SumAmounts(r.payments) == SumAmounts(s.payments) + p.amount
    ensures s.payments == [] ==> Consistent(r) && TaxPolicy(r)
  {
    SumAmountsAppend(s.payments, p);
    s.(amountPaid := p.amount, taxAmount := Tax(p.amount), payments := s.payments + [p])
  }

  /** A later payment on a Standard invoice: no tax. */
  function StandardPartial(s: InvoiceState, p: Payment): (r: InvoiceState)
    ensures r.taxAmount == s.taxAmount
    ensures s.payments != [] && Consistent(s) ==> Consistent(r)
    ensures s.payments != [] && s.invoiceType == Standard && TaxPolicy(s) ==> TaxPolicy(r)
  {
    SumAmountsAppend(s.payments, p);
    s.(amountPaid := s.amountPaid + p.amount, payments := s.payments + [p])
  }

  /** A later payment on a Commercial invoice: tax on the payment. */
  function CommercialPartial(s: InvoiceState, p: Payment): (r: InvoiceState)
    ensures r.taxAmount - s.taxAmount == Tax(p.amount)
    ensures s.payments != [] && Consistent(s) ==> Consistent(r)
    ensures s.payments != [] && s.invoiceType == Commercial && TaxPolicy(s) ==> TaxPolicy(r)
  {
    SumAmountsAppend(s.payments, p);
    s.(amountPaid := s.amountPaid + p.amount, taxAmount := s.taxAmount + Tax(p.amount),
       payments := s.payments + [p])
  }

  /** The type dispatch shared by the final and the other later payments.
      An out-of-range type raises before any field is written, so the
      invoice is left as it was. */
  function SubsequentPayment(s: InvoiceState, p: Payment): (r: InvoiceState)
    ensures s.invoiceType.Other? ==> r == s
    ensures !s.invoiceType.Other? ==>
      && r.payments == s.payments + [p]
      && r.amountPaid == s.amountPaid + p.amount
      && r.taxAmount == s.taxAmount + (if s.invoiceType == Commercial then Tax(p.amount) else 0.0)
  {
    match s.invoiceType
    case Standard => StandardPartial(s, p)
    case Commercial => CommercialPartial(s, p)
    case Other(_) => s
  }

  /** The invoice after outcome o: unchanged unless o is accepted, and
      otherwise extended by the payment with amount and type kept. */
  function Effect(s: InvoiceState, p: Payment, o: Outcome): (r: InvoiceState)
    ensures !Accepted(o) ==> r == s
    ensures Accepted(o) && TypeDispatch(s, o).Ok? ==>
      r.payments == s.payments + [p] && r.amount == s.amount && r.invoiceType == s.invoiceType
  {
    if !Accepted(o) then s
    else if o == FullyPaid || o == PartiallyPaid then FirstPayment(s, p)
    else SubsequentPayment(s, p)
  }

  /** The invoice after a call that decided d. */
  function After(s: InvoiceState, p: Payment, d: Result<Outcome, InvoiceError>): InvoiceState
  {
    match d
    case Ok(o) => Effect(s, p, o)
    case Err(_) => s
  }

  /** The invoice after the whole call. */
  function Applied(s: InvoiceState, p: Payment): (r: InvoiceState)
    ensures !Applies(Decide(s, p)) ==> r == s
    ensures Applies(Decide(s, p)) ==>
      && r.payments == s.payments + [p]
      && r.amount == s.amount
      && r.invoiceType == s.invoiceType
      && r.amountPaid <= r.amount
    ensures Applies(Decide(s, p)) && s.payments == [] ==>
      r.amountPaid == p.amount && r.taxAmount == Tax(p.amount)
    ensures Applies(Decide(s, p)) && s.payments != [] ==>
      && r.amountPaid == s.amountPaid + p.amount
      && r.taxAmount == s.taxAmount + (if s.invoiceType == Commercial then Tax(p.amount) else 0.0)
    ensures Decide(s, p).Ok? && Settles(Decide(s, p).value) ==> r.amountPaid == r.amount
  {
    After(s, p, Decide(s, p))
  }

  // ---------------------------------------------------------------------
  //  Properties of the rules
  // ---------------------------------------------------------------------

  /** Between the two declared types the outcome (and the error) never
      depends on the type: the type only chooses the tax policy. */
  lemma OutcomeIgnoresType(s: InvoiceState, p: Payment, t: InvoiceType)
    requires !s.invoiceType.Other? && !t.Other?
    ensures Decide(s.(invoiceType := t), p) == Decide(s, p)
  {
  }

  /** An out-of-range type gets the same decision as a declared one, except
      that a later payment that would be accepted raises the unknown-type
      error instead; a later payment never changes such an invoice. */
  lemma UnknownTypeRaisesOnLaterPayment(s: InvoiceState, p: Payment, c: OutOfRange)
    ensures var u := s.(invoiceType := Other(c));
            var d := Decide(s.(invoiceType := Standard), p);
            Decide(u, p) == if d.Ok? && LaterPayment(d.value) then Err(UnknownInvoiceType(c)) else d
    ensures var u := s.(invoiceType := Other(c));
            u.payments != [] ==> Applied(u, p) == u
  {
  }

  /** "Already fully paid" takes precedence over the size of the incoming
      payment: two payments of any amounts get the same outcome, and neither
      changes the invoice. */
  lemma AlreadyFullyPaidForAnyAmount(s: InvoiceState, p: Payment, q: Payment)
    requires AlreadyFull(s)
    ensures Decide(s, p) == Decide(s, q) == Ok(AlreadyFullyPaid)
    ensures Applied(s, p) == Applied(s, q) == s
  {
  }

  /** The running total agrees with the history whenever there is a history.
      (An empty history with a stale running total is harmless: the first
      payment overwrites the running total.) */
  predicate Consistent(s: InvoiceState)
  {
    s.payments != [] ==> SumAmounts(s.payments) == s.amountPaid
  }

  /** Every call keeps the running total in agreement with the history. */
  lemma AppliedKeepsConsistent(s: InvoiceState, p: Payment)
    requires Consistent(s)
    ensures Consistent(Applied(s, p))
  {
    if Applies(Decide(s, p)) {
      SumAmountsAppend(s.payments, p);
    }
  }

  /** Under consistency no accepted payment lets the history exceed the
      invoice amount. */
  lemma AppliedHistoryWithinAmount(s: InvoiceState, p: Payment)
    requires Consistent(s)
    requires Applies(Decide(s, p))
    ensures SumAmounts(Applied(s, p).payments) <= s.amount
  {
    AppliedKeepsConsistent(s, p);
  }

  /** The tax policy as an invariant: the tax of a Commercial invoice is 14%
      of all its payments, that of any other invoice 14% of its first
      payment (later payments on it are untaxed or raise). */
  function TaxBase(s: InvoiceState): real
    requires s.payments != []
  {
    match s.invoiceType
    case Commercial => SumAmounts(s.payments)
    case _ => s.payments[0].amount
  }

  predicate TaxPolicy(s: InvoiceState)
  {
    s.payments != [] ==> s.taxAmount == Tax(TaxBase(s))
  }

  lemma AppliedKeepsTaxPolicy(s: InvoiceState, p: Payment)
    requires TaxPolicy(s)
    ensures TaxPolicy(Applied(s, p))
  {
    if Applies(Decide(s, p)) {
      SumAmountsAppend(s.payments, p);
      if s.payments == [] {
        assert Applied(s, p).payments == [p];
      } else {
        assert Applied(s, p).payments[0] == s.payments[0];
      }
    }
  }

  /** After a settling outcome on a consistent invoice, every further payment
      gets "invoice was already fully paid" and changes nothing. */
  lemma SettlingOutcomeIsFinal(s: InvoiceState, p: Payment, q: Payment)
    requires Consistent(s)
    requires Decide(s, p).Ok? && Settles(Decide(s, p).value)
    ensures AlreadyFull(Applied(s, p))
    ensures Decide(Applied(s, p), q) == Ok(AlreadyFullyPaid)
    ensures Applied(Applied(s, p), q) == Applied(s, p)
  {
    SumAmountsAppend(s.payments, p);
    assert [] + [p] == [p];
  }

  /** A sequence of calls against one invoice, in order. */
  function ProcessAll(s: InvoiceState, ps: seq<Payment>): InvoiceState
    decreases |ps|
  {
    if ps == [] then s else ProcessAll(Applied(s, ps[0]), ps[1..])
  }

  /** The decisions of that sequence of calls. */
  function DecideAll(s: InvoiceState, ps: seq<Payment>): seq<Result<Outcome, InvoiceError>>
    decreases |ps|
  {
    if ps == [] then [] else [Decide(s, ps[0])] + DecideAll(Applied(s, ps[0]), ps[1..])
  }

  /** How many decisions in ds report the invoice as now fully paid. */
  function CountSettling(ds: seq<Result<Outcome, InvoiceError>>): nat
  {
    if ds == [] then 0
    else (if ds[0].Ok? && Settles(ds[0].value) then 1 else 0) + CountSettling(ds[1..])
  }

  /** Over any sequence of payments a consistent invoice is reported fully
      paid at most once, and never once it is already fully paid; it stays
      consistent, and once fully paid it is still fully paid at the end. */
  lemma {:induction false} SettledAtMostOnce(s: InvoiceState, ps: seq<Payment>)
    requires Consistent(s)
    ensures CountSettling(DecideAll(s, ps)) <= (if AlreadyFull(s) then 0 else 1)
    ensures Consistent(ProcessAll(s, ps))
    ensures (AlreadyFull(s) || CountSettling(DecideAll(s, ps)) == 1) ==> AlreadyFull(ProcessAll(s, ps))
    decreases |ps|
  {
    if ps != [] {
      var d := Decide(s, ps[0]);
      var s' := Applied(s, ps[0]);
      var ds := DecideAll(s, ps);
      assert ds[0] == d && ds[1..] == DecideAll(s', ps[1..]);
      AppliedKeepsConsistent(s, ps[0]);
      SettledAtMostOnce(s', ps[1..]);
      if AlreadyFull(s) {
        assert d == Ok(AlreadyFullyPaid) && s' == s;
      } else if d.Ok? && Settles(d.value) {
        SettlingOutcomeIsFinal(s, ps[0], ps[0]);
      }
    }
  }

  /** The history and the running total are read separately: without
      consistency, a "final" payment can leave the history above the
      amount. The rules preserve this dual read as written. */
  lemma DualReadDivergence()
    ensures var s := InvoiceState(10.0, 0.0, 0.0, [Payment("R1", 5.0)], Standard);
            var p := Payment("R1", 10.0);
            && Decide(s, p) == Ok(FinallyPaid)
            && SumAmounts(Applied(s, p).payments) == 15.0
  {
    var s := InvoiceState(10.0, 0.0, 0.0, [Payment("R1", 5.0)], Standard);
    var p := Payment("R1", 10.0);
    SumAmountsAppend(s.payments, p);
  }
}
