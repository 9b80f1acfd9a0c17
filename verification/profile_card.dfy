/** The provider card (`ProfessionalProfileCard`): when booking is possible and what the card says otherwise. */
module ProfileCard {
  import opened Wrappers
  import opened Domain

  const LoginPrompt := "Inicia sesión para poder reservar."
  const AddPetPrompt := "Agrega una mascota para poder reservar."

  /** `isButtonDisabled = !currentUser || pets.length === 0` */
  predicate ButtonDisabled(user: Option<User>, pets: seq<Pet>)
  {
    user.None? || |pets| == 0
  }

  /** `alertMessage`: the login prompt without a user, else the add-a-pet prompt without pets, else none. */
  function AlertMessage(user: Option<User>, pets: seq<Pet>): (alert: Option<string>)
    ensures user.None? ==> alert == Some(LoginPrompt)
    ensures user.Some? && |pets| == 0 ==> alert == Some(AddPetPrompt)
    ensures alert.None? <==> !ButtonDisabled(user, pets)
  {
    if user.None? then Some(LoginPrompt)
    else if |pets| == 0 then Some(AddPetPrompt)
    else None
  }

  /** A click on the action button: `onActionClick(person)`, which a disabled button never fires. */
  function ActionClick(person: Provider, user: Option<User>, pets: seq<Pet>): (selected: Option<Provider>)
    ensures selected.Some? <==> user.Some? && |pets| > 0
    ensures selected.Some? ==> selected.value == person
  {
    if ButtonDisabled(user, pets) then None else Some(person)
  }
}
