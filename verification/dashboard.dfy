/**
 * The user dashboard (`DashboardUser`): its own guarded `addPet`, its
 * copies of `deletePet` and `updateBookingStatus` (which go through the
 * application's setters), and the per-user views it renders.
 */
module Dashboard {
  import opened Wrappers
  import opened Domain
  import opened Seqs
  import opened App
  import Storage

  /** `(b) => b.userId === user.id` */
  function BookedBy(uid: int): Booking -> bool
  {
    (b: Booking) => b.userId == uid
  }

  /** `userPets`: nothing without a user, otherwise exactly that user's pets in order. */
  function UserPets(pets: seq<Pet>, user: Option<User>): (r: seq<Pet>)
    ensures user.None? ==> r == []
    ensures user.Some? ==> forall p :: p in r <==> p in pets && p.userId == Some(user.value.id)
    ensures user.Some? ==> forall p :: multiset(r)[p] == if p.userId == Some(user.value.id) then multiset(pets)[p] else 0
    ensures IsSubsequence(r, pets)
  {
    if user.None? then [] else BookablePets(pets, user.value)
  }

  /** `userBookings`: nothing without a user, otherwise exactly that user's bookings in order. */
  function UserBookings(bookings: seq<Booking>, user: Option<User>): (r: seq<Booking>)
    ensures user.None? ==> r == []
    ensures user.Some? ==> forall b :: b in r <==> b in bookings && b.userId == user.value.id
    ensures user.Some? ==> forall b :: multiset(r)[b] == if b.userId == user.value.id then multiset(bookings)[b] else 0
    ensures IsSubsequence(r, bookings)
  {
    if user.None? then []
    else
      var keep := BookedBy(user.value.id);
      var r := Filter(bookings, keep);
      FilterIsSubsequence(bookings, keep);
      assert forall b :: (b in r <==> b in bookings && b.userId == user.value.id)
                         && multiset(r)[b] == (if b.userId == user.value.id then multiset(bookings)[b] else 0) by {
        forall b ensures (b in r <==> b in bookings && b.userId == user.value.id)
                         && multiset(r)[b] == (if b.userId == user.value.id then multiset(bookings)[b] else 0) {
          FilterMembership(bookings, keep, b);
          FilterCounts(bookings, keep, b);
        }
      }
      r
  }

  /**
   * With a user logged in the tabs, the booking form and the dashboard all
   * see the same pets; without one the tabs see every pet and the dashboard none.
   */
  lemma OwnerFilters(pets: seq<Pet>, user: Option<User>)
    ensures user.Some? ==> VisiblePets(pets, user) == UserPets(pets, user) == BookablePets(pets, user.value)
    ensures user.None? ==> VisiblePets(pets, user) == pets && UserPets(pets, user) == []
  {
  }

  /** `userBookings.slice(0, 3)`: the first three bookings, in order. */
  function Recent(bookings: seq<Booking>): (r: seq<Booking>)
    ensures r <= bookings
    ensures |r| == if |bookings| < 3 then |bookings| else 3
  {
    if |bookings| < 3 then bookings else bookings[..3]
  }

  /** The "see all" link is shown iff some bookings are left out of the listing. */
  function ShowsSeeAll(bookings: seq<Booking>): (shown: bool)
    ensures shown <==> Recent(bookings) != bookings
  {
    |bookings| > 3
  }

  /** The dashboard's `addPet`: a no-op without a user, otherwise one pet owned by the user is appended. */
  method AddPet(app: AppState, data: PetForm, id: int, createdAt: string)
    requires app.Valid()
    modifies app, app.storage
    ensures app.Valid()
    ensures old(app.currentUser).None? ==> app.pets == old(app.pets) && app.storage.entries == old(app.storage.entries)
    ensures old(app.currentUser).Some? ==>
              && app.pets == old(app.pets) + [Pet(id, data.name, data.breed, data.age, data.weight,
                                                  data.specialNeeds, None, createdAt,
                                                  Some(old(app.currentUser).value.id))]
              && app.storage.entries == old(app.storage.entries)[Storage.PetsKey := Storage.PetList(app.pets)]
    ensures app.bookings == old(app.bookings) && app.currentUser == old(app.currentUser)
    ensures app.showLogin == old(app.showLogin)
  {
    if app.currentUser.None? {
      return;
    }
    var pet := Pet(id, data.name, data.breed, data.age, data.weight, data.specialNeeds,
                   None, createdAt, Some(app.currentUser.value.id));
    app.pets := app.pets + [pet];
    app.storage.SetItem(Storage.PetsKey, Storage.PetList(app.pets));
  }

  /** The dashboard's `deletePet`: the same filter, through the application's setter. */
  method DeletePet(app: AppState, id: int)
    requires app.Valid()
    modifies app, app.storage
    ensures app.Valid()
    ensures app.pets == WithoutPet(old(app.pets), id)
    ensures app.bookings == old(app.bookings) && app.currentUser == old(app.currentUser)
    ensures app.showLogin == old(app.showLogin)
    ensures app.storage.entries == old(app.storage.entries)[Storage.PetsKey := Storage.PetList(app.pets)]
  {
    app.DeletePet(id);
  }

  /** The dashboard's `updateBookingStatus`: the same map, through the application's setter. */
  method UpdateBookingStatus(app: AppState, id: int, status: string)
    requires app.Valid()
    modifies app, app.storage
    ensures app.Valid()
    ensures app.bookings == WithStatus(old(app.bookings), id, status)
    ensures app.pets == old(app.pets) && app.currentUser == old(app.currentUser)
    ensures app.showLogin == old(app.showLogin)
    ensures app.storage.entries == old(app.storage.entries)[Storage.BookingsKey := Storage.BookingList(app.bookings)]
  {
    app.UpdateBookingStatus(id, status);
  }
}
