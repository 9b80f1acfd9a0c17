/**
 * The booking form (`BookingModal`): default selections, per-field edits,
 * the duration select, the required-field check and the price rule.
 */
module BookingModal {
  import opened Wrappers
  import opened Domain

  /** The form state; `petId == None` is the empty selection `''`. */
  datatype Form = Form(petId: Option<int>, date: string, time: string, service: string, duration: int, notes: string)

  /** The text-valued inputs and selects handled by `handleChange`. */
  datatype TextField = Date | Time | Service | Notes

  function FieldValue(form: Form, f: TextField): string
  {
    match f
    case Date => form.date
    case Time => form.time
    case Service => form.service
    case Notes => form.notes
  }

  /** `{ ...prev, [name]: value }` for a text field: that field changes, nothing else does. */
  function SetText(form: Form, f: TextField, value: string): (r: Form)
    ensures FieldValue(r, f) == value
    ensures forall g :: g != f ==> FieldValue(r, g) == FieldValue(form, g)
    ensures r.petId == form.petId && r.duration == form.duration
  {
    match f
    case Date => form.(date := value)
    case Time => form.(time := value)
    case Service => form.(service := value)
    case Notes => form.(notes := value)
  }

  /** The hours the duration select offers. */
  const DurationOptions: seq<int> := [1, 2, 3, 4, 5, 6]

  /** The initial `formData`: first pet, first service, one hour, everything else empty. */
  function Initial(walker: Provider, pets: seq<Pet>): (r: Form)
    ensures r.petId.Some? <==> |pets| > 0
    ensures r.petId.Some? ==> r.petId.value == pets[0].id
    ensures r.service == if |walker.services| > 0 then walker.services[0] else ""
    ensures r.duration in DurationOptions && r.duration == 1
    ensures r.date == "" && r.time == "" && r.notes == ""
  {
    Form(if |pets| > 0 then Some(pets[0].id) else None, "", "",
         if |walker.services| > 0 then walker.services[0] else "", 1, "")
  }

  /** The estimate shown under the form: `walker.price * formData.duration`. */
  function Estimate(walker: Provider, form: Form): int
  {
    walker.price * form.duration
  }

  /**
   * `handleSubmit`: nothing is booked while pet, date, time or service is
   * empty; otherwise every form field goes out with `walkerId` and the
   * displayed estimate as `totalPrice`.
   */
  function Submit(walker: Provider, form: Form): (sent: Option<BookingRequest>)
    ensures sent.None? <==> form.petId.None? || form.date == "" || form.time == "" || form.service == ""
    ensures sent.Some? ==>
              && sent.value.totalPrice == Estimate(walker, form)
              && sent.value.walkerId == walker.id
              && sent.value == BookingRequest(form.petId.value, form.date, form.time, form.service,
                                              form.duration, form.notes, walker.id, sent.value.totalPrice)
  {
    if form.petId.None? || form.date == "" || form.time == "" || form.service == "" then None
    else Some(BookingRequest(form.petId.value, form.date, form.time, form.service, form.duration,
                             form.notes, walker.id, walker.price * form.duration))
  }

  /** With a selectable duration, the price lies between one and six hours of the provider's rate. */
  lemma TotalPriceBounds(walker: Provider, form: Form)
    requires walker.price >= 0 && form.duration in DurationOptions
    ensures walker.price <= Estimate(walker, form) <= 6 * walker.price
  {
    var d := form.duration;
    assert 1 <= d <= 6;
    if d == 1 {
    } else if d == 2 {
    } else if d == 3 {
    } else if d == 4 {
    } else if d == 5 {
    } else {
      assert d == 6;
    }
  }

  /**
   * A freshly opened form is rejected until a date and a time are entered;
   * with at least one pet and one service, entering them is enough.
   */
  lemma InitialNeedsDateAndTime(walker: Provider, pets: seq<Pet>, date: string, time: string)
    ensures Submit(walker, Initial(walker, pets)).None?
    ensures |pets| > 0 && |walker.services| > 0 && walker.services[0] != "" && date != "" && time != "" ==>
              Submit(walker, SetText(SetText(Initial(walker, pets), Date, date), Time, time)).Some?
  {
    var filled := SetText(SetText(Initial(walker, pets), Date, date), Time, time);
    assert FieldValue(filled, Service) == FieldValue(Initial(walker, pets), Service);
  }

  /** The booking in the sample scenario: two hours at 15 cost 30. */
  lemma PriceScenario(walker: Provider, form: Form)
    requires walker.price == 15 && form.duration == 2
    requires form.petId.Some? && form.date != "" && form.time != "" && form.service != ""
    ensures Submit(walker, form).Some? && Submit(walker, form).value.totalPrice == 30
  {
  }

  class BookingModal {
    const walker: Provider
    var formData: Form

    ghost predicate Valid()
      reads this
    {
      formData.duration in DurationOptions
    }

    /** Opening the form for a provider with the user's pets. */
    constructor Open(walker: Provider, pets: seq<Pet>)
      ensures Valid() && this.walker == walker
      ensures formData.petId == if |pets| > 0 then Some(pets[0].id) else None
      ensures formData.service == if |walker.services| > 0 then walker.services[0] else ""
      ensures formData.duration == 1
      ensures formData.date == "" && formData.time == "" && formData.notes == ""
    {
      this.walker := walker;
      formData := Initial(walker, pets);
    }

    /** `handleChange` for a text input or the service select. */
    method HandleChange(f: TextField, value: string)
      requires Valid()
      modifies this
      ensures Valid()
      ensures FieldValue(formData, f) == value
      ensures forall g :: g != f ==> FieldValue(formData, g) == FieldValue(old(formData), g)
      ensures formData.petId == old(formData.petId) && formData.duration == old(formData.duration)
    {
      formData := SetText(formData, f, value);
    }

    /** `handleChange` for the pet select (`None` is its empty option). */
    method HandlePetChange(petId: Option<int>)
      requires Valid()
      modifies this
      ensures Valid()
      ensures formData == old(formData).(petId := petId)
    {
      formData := formData.(petId := petId);
    }

    /** `handleDurationChange`: the select only offers 1 to 6 hours. */
    method HandleDurationChange(hour: int)
      requires Valid() && hour in DurationOptions
      modifies this
      ensures Valid()
      ensures formData == old(formData).(duration := hour)
    {
      formData := formData.(duration := hour);
    }
  }
}
