/**
 * The records the components pass around: users, pets, bookings, providers,
 * and the payloads the forms hand to their callbacks.
 * Ids are `Date.now()` numbers (or fixed numbers for seeded providers).
 */
module Domain {
  import opened Wrappers

  /** The logged-in user built by `handleLogin`. */
  datatype User = User(id: int, email: string, name: string)

  /** A pet; `userId` is `currentUser?.id` at creation, so it may be absent. */
  datatype Pet = Pet(
    id: int,
    name: string,
    breed: string,
    age: string,
    weight: string,
    specialNeeds: string,
    imageUrl: Option<string>,
    createdAt: string,
    userId: Option<int>)

  /** What the add-pet form submits. */
  datatype PetForm = PetForm(name: string, breed: string, age: string, weight: string, specialNeeds: string)

  /** What the booking form submits: the form fields plus `walkerId` and `totalPrice`. */
  datatype BookingRequest = BookingRequest(
    petId: int,
    date: string,
    time: string,
    service: string,
    duration: int,
    notes: string,
    walkerId: int,
    totalPrice: int)

  /**
   * A stored booking. `dismiss` is the transient key the notification layer
   * may leave on a booking object; it is not part of the durable record.
   */
  datatype Booking = Booking(
    id: int,
    petId: int,
    walkerId: int,
    date: string,
    time: string,
    service: string,
    duration: int,
    notes: string,
    totalPrice: int,
    status: string,
    createdAt: string,
    userId: int,
    dismiss: Option<string>)

  /** A walker or pet sitter (the float `rating` is not modelled). */
  datatype Provider = Provider(
    id: int,
    name: string,
    experience: string,
    price: int,
    location: string,
    services: seq<string>,
    avatar: string,
    reviews: int,
    verified: bool)

  /** What the login form submits. */
  datatype Credentials = Credentials(email: string, password: string)

  const Pending := "pending"
  const Confirmed := "confirmed"
  const Cancelled := "cancelled"
  const Completed := "completed"

  /** `const { dismiss, ...rest } = booking`: the booking without its transient key. */
  function Strip(b: Booking): (r: Booking)
    ensures r.dismiss == None
    ensures r.(dismiss := b.dismiss) == b
  {
    b.(dismiss := None)
  }

  predicate Undismissed(bs: seq<Booking>)
  {
    forall i :: 0 <= i < |bs| ==> bs[i].dismiss == None
  }

  /** `bookings.map(({ dismiss, ...rest }) => rest)`. */
  function StripAll(bs: seq<Booking>): (r: seq<Booking>)
    ensures |r| == |bs| && Undismissed(r)
    ensures forall i :: 0 <= i < |bs| ==> r[i].(dismiss := bs[i].dismiss) == bs[i]
  {
    if bs == [] then [] else [Strip(bs[0])] + StripAll(bs[1..])
  }

  /** Stripping bookings that carry no transient key changes nothing. */
  lemma StripAllUndismissed(bs: seq<Booking>)
    requires Undismissed(bs)
    ensures StripAll(bs) == bs
  {
    var r := StripAll(bs);
    assert forall i :: 0 <= i < |bs| ==> r[i] == bs[i];
  }
}
