/**
 * The payments resource: a store that starts empty, payment creation with its
 * two-stage validation, lookup, and cancellation with its ordered checks.
 */
module Payments {
  import opened Wrappers
  import opened Text
  import opened ErrorHandler
  import opened MockData
  import opened Tables

  /** The shortest cancellation reason the cancel route accepts. */
  const MinReasonLength := 5

  /**
   * The body of `POST /payments`; `None` is an absent field. `amount` is in
   * pence, and `scheduledDate` is the day the client names.
   */
  datatype PaymentInput = PaymentInput(
    fromAccountId: Option<string>,
    toBeneficiaryId: Option<string>,
    amount: Option<Pence>,
    currency: Option<string>,
    paymentType: Option<string>,
    reference: Option<string>,
    scheduledDate: Option<Day>,
    urgency: Option<string>)

  /** A number is truthy when present and not zero. */
  predicate AmountGiven(amount: Option<Pence>) {
    amount.Some? && amount.value != 0
  }

  /** The six required fields are all truthy. */
  predicate HasRequiredFields(input: PaymentInput) {
    && Truthy(input.fromAccountId) && Truthy(input.toBeneficiaryId) && AmountGiven(input.amount)
    && Truthy(input.currency) && Truthy(input.paymentType) && Truthy(input.reference)
  }

  /** The issues reported when any required field is missing: always all six. */
  const RequiredFieldIssues: seq<FieldIssue> := [
    FieldIssue("fromAccountId", "From account ID is required"),
    FieldIssue("toBeneficiaryId", "To beneficiary ID is required"),
    FieldIssue("amount", "Amount is required"),
    FieldIssue("currency", "Currency is required"),
    FieldIssue("paymentType", "Payment type is required"),
    FieldIssue("reference", "Reference is required")]

  /** The create route's validation: missing fields first, then a non-positive amount. */
  function Validate(input: PaymentInput): (r: Option<ErrorObject>)
    ensures !HasRequiredFields(input) ==>
      r.Some? && r.value.statusCode == Some(400) && r.value.code == Some("VALIDATION_ERROR") &&
      r.value.details == Some(RequiredFieldIssues)
    ensures HasRequiredFields(input) && input.amount.value < 0 ==>
      r.Some? && r.value.statusCode == Some(422) && r.value.code == Some("INVALID_AMOUNT")
    ensures r.None? <==> HasRequiredFields(input) && input.amount.value > 0
  {
    if !HasRequiredFields(input) then
      Some(CreateError(400, "VALIDATION_ERROR", "Missing required fields", Some(RequiredFieldIssues)))
    else if input.amount.value <= 0 then
      Some(CreateError(422, "INVALID_AMOUNT", "Amount must be greater than zero", None))
    else None
  }

  /** An amount of zero is falsy, so it is reported as a missing field, never as an invalid amount. */
  lemma ZeroAmountIsMissing(input: PaymentInput)
    requires input.amount == Some(0)
    ensures Validate(input).Some? && Validate(input).value.code == Some("VALIDATION_ERROR")
  {
  }

  /** A generated payment overwritten with the validated body; `today` is the clock's day. */
  function FromInput(input: PaymentInput, generated: Payment, today: Day): (p: Payment)
    requires HasRequiredFields(input)
    ensures p.paymentId == generated.paymentId && p.status == generated.status
    ensures p.fromAccountId == generated.fromAccountId && p.toBeneficiaryId == generated.toBeneficiaryId
    ensures p.amount == generated.amount
    ensures p.currency == input.currency.value && p.paymentType == input.paymentType.value
    ensures p.reference == input.reference.value
    ensures p.scheduledDate == input.scheduledDate.GetOr(today)
    ensures p.urgency == Some(input.urgency.GetOr("NORMAL"))
    ensures p.(currency := generated.currency, paymentType := generated.paymentType, reference := generated.reference,
               scheduledDate := generated.scheduledDate, urgency := generated.urgency) == generated
  {
    generated.(
      currency := input.currency.value,
      paymentType := input.paymentType.value,
      reference := input.reference.value,
      scheduledDate := if input.scheduledDate.Some? then input.scheduledDate.value else today,
      urgency := Some(if input.urgency.Some? then input.urgency.value else "NORMAL"))
  }

  /** What every stored payment satisfies. */
  predicate StoredPayment(p: Payment) {
    && PaymentLifecycle(p)
    && p.amount > 0
    && p.urgency.Some?
    && (p.cancellationReason.Some? ==> |p.cancellationReason.value| >= MinReasonLength)
  }

  /** The cancel route's checks on a stored payment, in order, and the change it makes. */
  function CancelTransition(p: Payment, reason: Option<string>, now: Time): (r: Result<Payment>)
    ensures p.status == "COMPLETED" ==> r.FailsWith(422, "PAYMENT_ALREADY_COMPLETED")
    ensures p.status == "CANCELLED" ==> r.FailsWith(422, "PAYMENT_ALREADY_CANCELLED")
    ensures p.status != "COMPLETED" && p.status != "CANCELLED" && !(Truthy(reason) && |reason.value| >= MinReasonLength) ==>
      r.FailsWith(400, "VALIDATION_ERROR")
    ensures r.Ok? <==> p.status != "COMPLETED" && p.status != "CANCELLED" && Truthy(reason) && |reason.value| >= MinReasonLength
    ensures r.Ok? ==>
      && r.value.status == "CANCELLED" && r.value.cancelledAt == Some(now) && r.value.cancellationReason == reason
      && r.value.(status := p.status, cancelledAt := p.cancelledAt, cancellationReason := p.cancellationReason) == p
  {
    if p.status == "COMPLETED" then
      Err(CreateError(422, "PAYMENT_ALREADY_COMPLETED", "Cannot cancel a completed payment", None))
    else if p.status == "CANCELLED" then
      Err(CreateError(422, "PAYMENT_ALREADY_CANCELLED", "Payment is already cancelled", None))
    else if !Truthy(reason) || |reason.value| < MinReasonLength then
      Err(CreateError(400, "VALIDATION_ERROR", "Cancellation reason must be at least 5 characters", None))
    else
      Ok(p.(status := "CANCELLED", cancelledAt := Some(now), cancellationReason := reason))
  }

  /** Cancelling keeps a stored payment well formed. */
  lemma CancelKeepsStoredPayment(p: Payment, reason: Option<string>, now: Time)
    requires StoredPayment(p) && CancelTransition(p, reason, now).Ok?
    ensures StoredPayment(CancelTransition(p, reason, now).value)
  {
  }

  /** Cancellation is not idempotent: a second cancel always fails as already cancelled. */
  lemma CancelTwiceFails(p: Payment, reason: Option<string>, now: Time, reason2: Option<string>, later: Time)
    requires CancelTransition(p, reason, now).Ok?
    ensures CancelTransition(CancelTransition(p, reason, now).value, reason2, later).FailsWith(422, "PAYMENT_ALREADY_CANCELLED")
  {
  }

  /** A completed payment can never be cancelled, whatever the reason. */
  lemma CompletedNeverCancels(p: Payment, reason: Option<string>, now: Time)
    requires p.status == "COMPLETED"
    ensures CancelTransition(p, reason, now).Err?
    ensures CancelTransition(p, reason, now).error.code == Some("PAYMENT_ALREADY_COMPLETED")
  {
  }

  function NotFound(paymentId: string): ErrorObject {
    CreateError(404, "PAYMENT_NOT_FOUND", "Payment " + paymentId + " not found", None)
  }

  /** Keys are the payments' own IDs and every stored payment is well formed. */
  ghost predicate StoreInvariant(t: Table<Payment>) {
    && t.Valid()
    && forall k :: k in t.entries ==> t.entries[k].paymentId == k && StoredPayment(t.entries[k])
  }

  /** The in-memory payments store. */
  class PaymentStore {
    var table: Table<Payment>

    ghost predicate Valid()
      reads this
    {
      StoreInvariant(table)
    }

    /** The store starts empty. */
    constructor ()
      ensures Valid() && table.entries == map[] && table.order == []
    {
      table := EmptyTable();
    }

    /** `POST /payments`: validate, generate, overwrite with the body, store. */
    method Create(input: PaymentInput, now: Time, d: PaymentDraws) returns (r: Result<Payment>)
      requires Valid() && d.InRange()
      modifies this
      ensures Valid()
      ensures r.Err? <==> Validate(input).Some?
      ensures r.Err? ==> r.error == Validate(input).value && table == old(table)
      ensures r.Ok? ==>
        && r.value == FromInput(input, GeneratePayment(input.fromAccountId.value, input.toBeneficiaryId.value,
                                                       input.amount.value, None, now, d), DayOf(now))
        && r.value.amount > 0 && r.value.status in GeneratedStatuses
        && table == old(table).Insert(r.value.paymentId, r.value)
    {
      var invalid := Validate(input);
      if invalid.Some? {
        return Err(invalid.value);
      }
      var generated := GeneratePayment(input.fromAccountId.value, input.toBeneficiaryId.value, input.amount.value, None, now, d);
      var payment := FromInput(input, generated, DayOf(now));
      table := table.Insert(payment.paymentId, payment);
      r := Ok(payment);
    }

    /** `GET /payments/:paymentId`. */
    function Get(paymentId: string): (r: Result<Payment>)
      reads this
      requires Valid()
      ensures paymentId !in table.entries ==> r.FailsWith(404, "PAYMENT_NOT_FOUND")
      ensures paymentId in table.entries ==> r == Ok(table.entries[paymentId])
      ensures r.Ok? ==> r.value.paymentId == paymentId && StoredPayment(r.value)
    {
      if paymentId in table.entries then Ok(table.entries[paymentId])
      else Err(NotFound(paymentId))
    }

    /** `PUT /payments/:paymentId/cancel`; `now` is the clock's reading. */
    method Cancel(paymentId: string, reason: Option<string>, now: Time) returns (r: Result<Payment>)
      requires Valid()
      modifies this
      ensures Valid()
      ensures paymentId !in old(table.entries) ==> r.Err? && r.error == NotFound(paymentId) && table == old(table)
      ensures paymentId in old(table.entries) ==> r == CancelTransition(old(table.entries[paymentId]), reason, now)
      ensures r.Err? ==> table == old(table)
      ensures r.Ok? ==> table == old(table).Insert(paymentId, r.value)
    {
      if paymentId !in table.entries {
        return Err(NotFound(paymentId));
      }
      r := CancelTransition(table.entries[paymentId], reason, now);
      if r.Ok? {
        CancelKeepsStoredPayment(table.entries[paymentId], reason, now);
        table := table.Insert(paymentId, r.value);
      }
    }
  }
}
