/** The pet card (`PetCard`): the owner guard on its buttons and the image fallback. */
module PetCard {
  import opened Wrappers
  import opened Domain

  const Placeholder := "https://via.placeholder.com/80"

  /** `isUserPet = currentUser && pet.userId === currentUser.id` */
  predicate IsUserPet(pet: Pet, user: Option<User>)
  {
    user.Some? && pet.userId == Some(user.value.id)
  }

  /** A button on the card and what its click passes on. */
  datatype Button = Edit(petId: int) | Delete(petId: int)

  /**
   * The buttons rendered: none unless the pet is the user's; then edit if
   * `onEdit` is given and delete if `onDelete` is given, each for this pet.
   */
  function Buttons(pet: Pet, user: Option<User>, hasOnEdit: bool, hasOnDelete: bool): (r: seq<Button>)
    ensures !IsUserPet(pet, user) ==> r == []
    ensures Edit(pet.id) in r <==> IsUserPet(pet, user) && hasOnEdit
    ensures Delete(pet.id) in r <==> IsUserPet(pet, user) && hasOnDelete
    ensures forall b :: b in r ==> b.petId == pet.id
  {
    if !IsUserPet(pet, user) then []
    else (if hasOnEdit then [Edit(pet.id)] else []) + (if hasOnDelete then [Delete(pet.id)] else [])
  }

  /** `pet.imageUrl || placeholder`: a missing or empty URL falls back to the placeholder. */
  function ImageSource(pet: Pet): (src: string)
    ensures src != ""
    ensures pet.imageUrl.Some? && pet.imageUrl.value != "" ==> src == pet.imageUrl.value
    ensures pet.imageUrl.None? || pet.imageUrl.value == "" ==> src == Placeholder
  {
    if pet.imageUrl.Some? && pet.imageUrl.value != "" then pet.imageUrl.value else Placeholder
  }
}
