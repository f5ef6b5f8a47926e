/**
 * The admin's job-creation form: the required-field check and the payload of
 * `POST /api/jobs`, the quantity stepper, the "JBC" id generator, the status badge and the
 * unit label. The quantity field holds whatever JavaScript value was last put in it: the
 * text typed into the input, or the number (possibly NaN) the stepper computed.
 */
module JobCreation {
  import opened Wrappers
  import opened JsText
  import opened Records

  datatype Quantity = Text(text: string) | Num(n: int) | NaN

  /** `parseInt(q)`: a number is read back through its decimal text, so it is itself; NaN stays NaN. */
  function ParseQuantity(q: Quantity): (r: Option<int>)
    ensures q.Num? ==> r == Some(q.n)
    ensures q.NaN? ==> r.None?
    ensures q.Text? ==> r == ParseInt(q.text)
  {
    match q
    case Text(s) => ParseInt(s)
    case Num(n) => Some(n)
    case NaN => None
  }

  /** JavaScript truthiness of the field: the empty text, 0 and NaN are falsy. */
  predicate Truthy(q: Quantity) {
    match q
    case Text(s) => s != ""
    case Num(n) => n != 0
    case NaN => false
  }

  /** The minus button: `Math.max(1, parseInt(q) - 1)`, where NaN makes the maximum NaN. */
  function Decrement(q: Quantity): (r: Quantity)
    ensures ParseQuantity(q).Some? ==> r.Num? && r.n >= 1
    ensures ParseQuantity(q).Some? && ParseQuantity(q).value >= 2 ==> r == Num(ParseQuantity(q).value - 1)
    ensures ParseQuantity(q).Some? && ParseQuantity(q).value <= 2 ==> r == Num(1)
    ensures ParseQuantity(q).None? ==> r == NaN
  {
    match ParseQuantity(q)
    case Some(n) => Num(if n - 1 > 1 then n - 1 else 1)
    case None => NaN
  }

  /** The plus button: `parseInt(q) + 1 || 1`, where a NaN or zero sum falls back to 1. */
  function Increment(q: Quantity): (r: Quantity)
    ensures r.Num? && r.n != 0
    ensures ParseQuantity(q).Some? && ParseQuantity(q).value + 1 != 0 ==> r == Num(ParseQuantity(q).value + 1)
    ensures ParseQuantity(q).None? || ParseQuantity(q).value == -1 ==> r == Num(1)
  {
    match ParseQuantity(q)
    case Some(n) => if n + 1 != 0 then Num(n + 1) else Num(1)
    case None => Num(1)
  }

  /** On a positive number, minus keeps it positive and undoes plus. */
  lemma {:induction false} StepperStaysPositive(q: Quantity)
    requires q.Num? && q.n >= 1
    ensures Decrement(q).Num? && Decrement(q).n >= 1
    ensures Increment(q) == Num(q.n + 1)
    ensures Decrement(Increment(q)) == q
  {
  }

  /** `{q} {q == 1 ? 'unit' : 'units'}`: loose equality, so the text "1.0" or " 1 " also reads as one unit. */
  function UnitLabel(q: Quantity): (word: string)
    ensures word == "unit" || word == "units"
    ensures q.Num? ==> (word == "unit" <==> q.n == 1)
    ensures q.NaN? ==> word == "units"
    ensures q.Text? ==> (word == "unit" <==> NumberStringIsOne(q.text))
  {
    var one := match q
      case Text(s) => NumberStringIsOne(s)
      case Num(n) => n == 1
      case NaN => false;
    if one then "unit" else "units"
  }

  /** For a text of plain digits, the label agrees with what `parseInt` reads. */
  lemma UnitLabelOfDigits(s: string)
    requires s != [] && AllDigits(s, 10)
    ensures UnitLabel(Text(s)) == "unit" <==> ParseInt(s) == Some(1)
  {
    NumberStringIsOneOnDigits(s);
  }

  /** `getStatusIcon`: a check for "Done", a clock for every other status (the colour is `Records.StatusColor`). */
  function StatusIcon(status: string): (icon: string)
    ensures icon == "fa-check-circle" <==> status == Done
    ensures icon == "fa-clock" <==> status != Done
  {
    if status == Done then "fa-check-circle" else "fa-clock"
  }

  /**
   * `generateJobId`: "JBC" followed by `Math.floor(random * 900) + 100`; `random` is the value
   * `Math.random()` returned.
   */
  function JobIdFor(random: real): (id: string)
    requires 0.0 <= random < 1.0
    ensures |id| == 6 && id[..3] == "JBC"
    ensures AllDigits(id[3..], 10)
    ensures ParseInt(id[3..]).Some? && 100 <= ParseInt(id[3..]).value <= 999
  {
    var number := (random * 900.0).Floor + 100;
    ThreeDigits(number);
    ParseIntOfNatToString(number);
    assert ("JBC" + NatToString(number))[3..] == NatToString(number);
    "JBC" + NatToString(number)
  }

  /** The form fields; `jobId` and `customer` are text. */
  datatype JobFormData = JobFormData(jobId: string, customer: string, quantity: Quantity)

  const EmptyForm: JobFormData := JobFormData("", "", Text(""))

  /** `!formData.jobId || !formData.customer || !formData.quantity`. */
  predicate Complete(f: JobFormData) {
    f.jobId != "" && f.customer != "" && Truthy(f.quantity)
  }

  /** The body sent to `POST /api/jobs`; a quantity that parses to NaN is sent as `None`. */
  datatype JobPayload = JobPayload(jobId: string, customer: string, quantity: Option<int>)

  function Payload(f: JobFormData): (p: JobPayload)
    ensures p.jobId == f.jobId && p.customer == f.customer
    ensures p.quantity == ParseQuantity(f.quantity)
  {
    JobPayload(f.jobId, f.customer, ParseQuantity(f.quantity))
  }

  /** A quantity typed as plain digits is sent as the integer those digits denote. */
  lemma PayloadOfTypedQuantity(jobId: string, customer: string, digits: string)
    requires digits != [] && AllDigits(digits, 10)
    ensures Payload(JobFormData(jobId, customer, Text(digits))).quantity == Some(DigitsValue(digits, 10))
  {
    ParseIntOfDigits(digits);
  }

  class JobForm {
    var formData: JobFormData
    var isCreating: bool

    constructor ()
      ensures formData == EmptyForm && !isCreating
    {
      formData, isCreating := EmptyForm, false;
    }

    /**
     * `handleSubmit`: an incomplete form sends nothing and changes nothing; a complete one sends
     * its payload and is cleared on success. `isCreating` is false again on every path.
     * The date and time stamps the payload also carries are not modelled.
     */
    method HandleSubmit(outcome: Result<()>) returns (sent: Option<JobPayload>)
      modifies this
      ensures !Complete(old(formData)) ==> sent.None? && formData == old(formData) && isCreating == old(isCreating)
      ensures Complete(old(formData)) ==> sent == Some(Payload(old(formData))) && !isCreating
      ensures Complete(old(formData)) && outcome.Ok? ==> formData == EmptyForm
      ensures Complete(old(formData)) && outcome.Err? ==> formData == old(formData)
    {
      if formData.jobId == "" || formData.customer == "" || !Truthy(formData.quantity) {
        return None;
      }
      isCreating := true;
      sent := Some(JobPayload(formData.jobId, formData.customer, ParseQuantity(formData.quantity)));
      if outcome.Ok? {
        formData := EmptyForm;
      }
      isCreating := false;
    }

    method DecrementQuantity()
      modifies this
      ensures formData == old(formData).(quantity := Decrement(old(formData).quantity))
      ensures isCreating == old(isCreating)
    {
      formData := formData.(quantity := Decrement(formData.quantity));
    }

    method IncrementQuantity()
      modifies this
      ensures formData == old(formData).(quantity := Increment(old(formData).quantity))
      ensures isCreating == old(isCreating)
    {
      formData := formData.(quantity := Increment(formData.quantity));
    }

    /** `generateJobId`: only `jobId` changes; customer and quantity are kept. */
    method GenerateJobId(random: real)
      requires 0.0 <= random < 1.0
      modifies this
      ensures formData == old(formData).(jobId := JobIdFor(random))
      ensures isCreating == old(isCreating)
    {
      formData := formData.(jobId := JobIdFor(random));
    }
  }
}
