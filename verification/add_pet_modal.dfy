/** The add-pet form (`AddPetModal`): per-field edits and the required-field check. */
module AddPetModal {
  import opened Wrappers
  import opened Domain

  datatype Field = Name | Breed | Age | Weight | SpecialNeeds

  function Get(form: PetForm, f: Field): string
  {
    match f
    case Name => form.name
    case Breed => form.breed
    case Age => form.age
    case Weight => form.weight
    case SpecialNeeds => form.specialNeeds
  }

  /** `{ ...prev, [name]: value }`: the named field takes the value, every other field is kept. */
  function Set(form: PetForm, f: Field, value: string): (r: PetForm)
    ensures Get(r, f) == value
    ensures forall g :: g != f ==> Get(r, g) == Get(form, g)
  {
    match f
    case Name => form.(name := value)
    case Breed => form.(breed := value)
    case Age => form.(age := value)
    case Weight => form.(weight := value)
    case SpecialNeeds => form.(specialNeeds := value)
  }

  const Blank := PetForm("", "", "", "", "")

  /** `handleSubmit`: `onAdd(formData)` when name, breed, age and weight are all filled in. */
  function Submit(form: PetForm): (sent: Option<PetForm>)
    ensures sent.Some? <==> form.name != "" && form.breed != "" && form.age != "" && form.weight != ""
    ensures sent.Some? ==> sent.value == form
  {
    if form.name == "" || form.breed == "" || form.age == "" || form.weight == "" then None
    else Some(form)
  }

  /** An immediate submit of the initial form is rejected. */
  lemma BlankRejected()
    ensures Submit(Blank) == None
  {
    assert Get(Blank, Name) == "";
  }

  /** `specialNeeds` is optional: its value never decides acceptance. */
  lemma SpecialNeedsOptional(form: PetForm, value: string)
    ensures Submit(Set(form, SpecialNeeds, value)).Some? == Submit(form).Some?
  {
    var edited := Set(form, SpecialNeeds, value);
    assert forall f :: f != SpecialNeeds ==> Get(edited, f) == Get(form, f);
  }

  class AddPetModal {
    var formData: PetForm

    constructor ()
      ensures formData == Blank
    {
      formData := Blank;
    }

    /** `handleChange`: one input's change event. */
    method HandleChange(f: Field, value: string)
      modifies this
      ensures Get(formData, f) == value
      ensures forall g :: g != f ==> Get(formData, g) == Get(old(formData), g)
    {
      formData := Set(formData, f, value);
    }
  }
}
