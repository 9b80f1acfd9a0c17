/**
 * The top-level application state (`App`): the pets, the bookings and the
 * current user, the mutations that replace them, the effects that write
 * them to the store, and the owner filters handed to the child views.
 */
module App {
  import opened Wrappers
  import opened Domain
  import opened Seqs
  import opened Text
  import Storage

  /** `(pet) => pet.id !== petId` */
  function NotId(id: int): Pet -> bool
  {
    (p: Pet) => p.id != id
  }

  /** `(p) => p.userId === user.id` */
  function OwnedBy(uid: int): Pet -> bool
  {
    (p: Pet) => p.userId == Some(uid)
  }

  /** The owner recorded by `addPet`: `currentUser?.id`. */
  function OwnerId(user: Option<User>): Option<int>
  {
    if user.Some? then Some(user.value.id) else None
  }

  /** `pets.filter((pet) => pet.id !== petId)`: every pet with that id removed, the rest kept in order. */
  function WithoutPet(pets: seq<Pet>, id: int): (r: seq<Pet>)
    ensures forall p :: p in r <==> p in pets && p.id != id
    ensures forall p: Pet :: p.id != id ==> multiset(r)[p] == multiset(pets)[p]
    ensures IsSubsequence(r, pets)
  {
    FilterIsSubsequence(pets, NotId(id));
    assert forall p :: (p in Filter(pets, NotId(id)) <==> p in pets && p.id != id)
                       && (p.id != id ==> multiset(Filter(pets, NotId(id)))[p] == multiset(pets)[p]) by {
      forall p ensures (p in Filter(pets, NotId(id)) <==> p in pets && p.id != id)
                       && (p.id != id ==> multiset(Filter(pets, NotId(id)))[p] == multiset(pets)[p]) {
        FilterMembership(pets, NotId(id), p);
        FilterCounts(pets, NotId(id), p);
      }
    }
    Filter(pets, NotId(id))
  }

  /** Deleting an id no pet carries leaves the list unchanged. */
  lemma WithoutPetUnknown(pets: seq<Pet>, id: int)
    requires forall p :: p in pets ==> p.id != id
    ensures WithoutPet(pets, id) == pets
  {
    FilterKeepsAll(pets, NotId(id));
  }

  /** Deleting the same id twice is deleting it once. */
  lemma WithoutPetIdempotent(pets: seq<Pet>, id: int)
    ensures WithoutPet(WithoutPet(pets, id), id) == WithoutPet(pets, id)
  {
    FilterIdempotent(pets, NotId(id));
  }

  /** Adding a pet with a fresh id and then deleting that id restores the list. */
  lemma AddThenDelete(pets: seq<Pet>, pet: Pet)
    requires forall p :: p in pets ==> p.id != pet.id
    ensures WithoutPet(pets + [pet], pet.id) == pets
  {
    FilterAppend(pets, [pet], NotId(pet.id));
    FilterKeepsAll(pets, NotId(pet.id));
  }

  /**
   * `bookings.map((b) => b.id === bookingId ? { ...b, status } : b)`:
   * only the status of matching bookings changes.
   */
  function WithStatus(bs: seq<Booking>, id: int, status: string): (r: seq<Booking>)
    ensures |r| == |bs|
    ensures forall i :: 0 <= i < |bs| ==> r[i].(status := bs[i].status) == bs[i]
    ensures forall i :: 0 <= i < |bs| ==> r[i].status == if bs[i].id == id then status else bs[i].status
  {
    if bs == [] then []
    else [if bs[0].id == id then bs[0].(status := status) else bs[0]] + WithStatus(bs[1..], id, status)
  }

  /** Updating an id no booking carries changes nothing. */
  lemma WithStatusUnknown(bs: seq<Booking>, id: int, status: string)
    requires forall i :: 0 <= i < |bs| ==> bs[i].id != id
    ensures WithStatus(bs, id, status) == bs
  {
    var r := WithStatus(bs, id, status);
    assert forall i :: 0 <= i < |bs| ==> r[i] == bs[i];
  }

  /** Two updates of the same id: the last one wins. */
  lemma WithStatusLastWins(bs: seq<Booking>, id: int, s1: string, s2: string)
    ensures WithStatus(WithStatus(bs, id, s1), id, s2) == WithStatus(bs, id, s2)
  {
    var a := WithStatus(WithStatus(bs, id, s1), id, s2);
    var b := WithStatus(bs, id, s2);
    forall i | 0 <= i < |bs| ensures a[i] == b[i] {
      assert a[i].(status := bs[i].status) == bs[i];
      assert b[i].(status := bs[i].status) == bs[i];
    }
  }

  /** The update never introduces the transient `dismiss` key. */
  lemma WithStatusUndismissed(bs: seq<Booking>, id: int, status: string)
    requires Undismissed(bs)
    ensures Undismissed(WithStatus(bs, id, status))
  {
    var r := WithStatus(bs, id, status);
    forall i | 0 <= i < |bs| ensures r[i].dismiss == None {
      assert r[i].(status := bs[i].status) == bs[i];
    }
  }

  /**
   * The pets handed to the walker and sitter tabs:
   * `pets.filter((p) => !currentUser || p.userId === currentUser.id)`.
   */
  function VisiblePets(pets: seq<Pet>, user: Option<User>): (r: seq<Pet>)
    ensures user.None? ==> r == pets
    ensures user.Some? ==> forall p :: p in r <==> p in pets && p.userId == Some(user.value.id)
    ensures user.Some? ==> forall p :: multiset(r)[p] == if p.userId == Some(user.value.id) then multiset(pets)[p] else 0
    ensures IsSubsequence(r, pets)
  {
    if user.None? then
      FilterKeepsAll(pets, (p: Pet) => true);
      FilterIsSubsequence(pets, (p: Pet) => true);
      pets
    else
      BookablePets(pets, user.value)
  }

  /** The pets handed to the booking form: `pets.filter((p) => p.userId === currentUser.id)`. */
  function BookablePets(pets: seq<Pet>, user: User): (r: seq<Pet>)
    ensures forall p :: p in r <==> p in pets && p.userId == Some(user.id)
    ensures forall p :: multiset(r)[p] == if p.userId == Some(user.id) then multiset(pets)[p] else 0
    ensures IsSubsequence(r, pets)
  {
    var r := Filter(pets, OwnedBy(user.id));
    FilterIsSubsequence(pets, OwnedBy(user.id));
    assert forall p :: (p in r <==> p in pets && p.userId == Some(user.id))
                       && multiset(r)[p] == (if p.userId == Some(user.id) then multiset(pets)[p] else 0) by {
      forall p ensures (p in r <==> p in pets && p.userId == Some(user.id))
                       && multiset(r)[p] == (if p.userId == Some(user.id) then multiset(pets)[p] else 0) {
        FilterMembership(pets, OwnedBy(user.id), p);
        FilterCounts(pets, OwnedBy(user.id), p);
      }
    }
    r
  }

  /** The user `handleLogin` builds from the submitted email. */
  function LoggedIn(credentials: Credentials, id: int): (u: User)
    ensures u.id == id && u.email == credentials.email
    ensures u.name <= credentials.email && '@' !in u.name
    ensures |u.name| < |credentials.email| ==> credentials.email[|u.name|] == '@'
  {
    User(id, credentials.email, LocalPart(credentials.email))
  }

  /** What mounting leaves behind: the loaded state and the store. */
  datatype Mounted = Mounted(pets: seq<Pet>, bookings: seq<Booking>, user: Option<User>,
                             entries: map<string, Storage.Value>)

  /**
   * Mounting as the components are written. `NotificationManager` is a child of
   * `App`, and React runs a child's effects before its parent's, so its effect
   * (there is no user yet) removes the user key before the load effect reads the
   * store. Pets and bookings are loaded; the stored user is lost.
   */
  function MountAsWritten(entries: map<string, Storage.Value>): (m: Mounted)
    requires Storage.WellFormed(entries)
    ensures m.user == None && Storage.UserKey !in m.entries
    ensures m.pets == Storage.LoadPets(entries) && m.bookings == Storage.LoadBookings(entries)
    ensures Storage.Synced(m.entries, m.pets, m.bookings, m.user)
    ensures forall k :: k != Storage.PetsKey && k != Storage.BookingsKey && k != Storage.UserKey ==>
              (k in m.entries <==> k in entries) && (k in m.entries ==> m.entries[k] == entries[k])
  {
    var cleared := entries - {Storage.UserKey};
    var pets := Storage.LoadPets(cleared);
    var bookings := Storage.LoadBookings(cleared);
    var user := Storage.LoadUser(cleared);
    Mounted(pets, bookings, user, Storage.Persisted(cleared, pets, bookings, user))
  }

  /**
   * Mounting as the load effect intends: the stored pets, bookings and user are
   * restored, then the persistence effects write that state back.
   */
  function MountIntended(entries: map<string, Storage.Value>): (m: Mounted)
    requires Storage.WellFormed(entries)
    ensures m.user.Some? <==> Storage.UserKey in entries
    ensures m.user.Some? ==> m.user.value == entries[Storage.UserKey].user
    ensures m.pets == Storage.LoadPets(entries) && m.bookings == Storage.LoadBookings(entries)
    ensures Storage.Synced(m.entries, m.pets, m.bookings, m.user)
    ensures forall k :: k != Storage.PetsKey && k != Storage.BookingsKey && k != Storage.UserKey ==>
              (k in m.entries <==> k in entries) && (k in m.entries ==> m.entries[k] == entries[k])
  {
    var pets := Storage.LoadPets(entries);
    var bookings := Storage.LoadBookings(entries);
    var user := Storage.LoadUser(entries);
    Mounted(pets, bookings, user, Storage.Persisted(entries, pets, bookings, user))
  }

  /** A page reload after any session restores that session: pets, bookings and user. */
  lemma ReloadRestoresSession(entries: map<string, Storage.Value>, pets: seq<Pet>, bookings: seq<Booking>,
                              user: Option<User>)
    requires Undismissed(bookings)
    ensures Storage.WellFormed(Storage.Persisted(entries, pets, bookings, user))
    ensures MountIntended(Storage.Persisted(entries, pets, bookings, user)).pets == pets
    ensures MountIntended(Storage.Persisted(entries, pets, bookings, user)).bookings == bookings
    ensures MountIntended(Storage.Persisted(entries, pets, bookings, user)).user == user
  {
    Storage.PersistThenLoad(entries, pets, bookings, user);
  }

  /** As written, a page reload keeps the pets and bookings but logs the user out. */
  lemma ReloadLosesUser(entries: map<string, Storage.Value>, pets: seq<Pet>, bookings: seq<Booking>, user: User)
    requires Undismissed(bookings)
    ensures Storage.WellFormed(Storage.Persisted(entries, pets, bookings, Some(user)))
    ensures MountAsWritten(Storage.Persisted(entries, pets, bookings, Some(user))).pets == pets
    ensures MountAsWritten(Storage.Persisted(entries, pets, bookings, Some(user))).bookings == bookings
    ensures MountAsWritten(Storage.Persisted(entries, pets, bookings, Some(user))).user == None
  {
    Storage.PersistThenLoad(entries, pets, bookings, Some(user));
  }

  /** A concrete store on which the two mounts differ: a saved login is not restored. */
  lemma StoredUserLost()
    ensures var entries := map[Storage.UserKey := Storage.UserRecord(User(1, "ana@example.com", "ana"))];
            && Storage.WellFormed(entries)
            && MountAsWritten(entries).user == None
            && MountIntended(entries).user == Some(User(1, "ana@example.com", "ana"))
  {
  }

  /** The application state, kept in sync with the store by the persistence effects. */
  class AppState {
    var pets: seq<Pet>
    var bookings: seq<Booking>
    var currentUser: Option<User>
    /** Raised when a booking is attempted without a logged-in user. */
    var showLogin: bool
    const storage: Storage.Store

    /** In-memory bookings never carry `dismiss`, and the store mirrors the state. */
    ghost predicate Valid()
      reads this, storage
    {
      Undismissed(bookings) && Storage.Synced(storage.entries, pets, bookings, currentUser)
    }

    /**
     * Mounting as intended: the load effect, then the persistence effects on
     * the loaded state (`MountIntended`; see `MountAsWritten` for the order
     * the components actually produce).
     */
    constructor Mount(store: Storage.Store)
      requires Storage.WellFormed(store.entries)
      modifies store
      ensures storage == store && Valid() && !showLogin
      ensures Mounted(pets, bookings, currentUser, store.entries) == MountIntended(old(store.entries))
    {
      storage := store;
      var savedPets := store.GetItem(Storage.PetsKey);
      var savedBookings := store.GetItem(Storage.BookingsKey);
      var savedUser := store.GetItem(Storage.UserKey);
      pets := if savedPets.Some? then savedPets.value.pets else [];
      bookings := if savedBookings.Some? then StripAll(savedBookings.value.bookings) else [];
      currentUser := if savedUser.Some? then Some(savedUser.value.user) else None;
      showLogin := false;
      new;
      store.SetItem(Storage.PetsKey, Storage.PetList(pets));
      store.SetItem(Storage.BookingsKey, Storage.BookingList(bookings));
      if currentUser.Some? {
        store.SetItem(Storage.UserKey, Storage.UserRecord(currentUser.value));
      } else {
        store.RemoveItem(Storage.UserKey);
      }
    }

    /**
     * `addPet`: appends one pet with the form's fields, the clock's id and
     * timestamp, and the current user as owner (no form sends an `id`).
     */
    method AddPet(data: PetForm, id: int, createdAt: string)
      requires Valid()
      modifies this, storage
      ensures Valid()
      ensures pets == old(pets) + [Pet(id, data.name, data.breed, data.age, data.weight, data.specialNeeds,
                                       None, createdAt, OwnerId(old(currentUser)))]
      ensures bookings == old(bookings) && currentUser == old(currentUser) && showLogin == old(showLogin)
      ensures storage.entries == old(storage.entries)[Storage.PetsKey := Storage.PetList(pets)]
    {
      var pet := Pet(id, data.name, data.breed, data.age, data.weight, data.specialNeeds,
                     None, createdAt, OwnerId(currentUser));
      pets := pets + [pet];
      storage.SetItem(Storage.PetsKey, Storage.PetList(pets));
    }

    /**
     * `createBooking`: without a user, raises the login prompt and changes
     * nothing else; with one, appends one pending booking owned by that user.
     */
    method CreateBooking(request: BookingRequest, id: int, createdAt: string)
      requires Valid()
      modifies this, storage
      ensures Valid()
      ensures old(currentUser).None? ==>
                bookings == old(bookings) && showLogin && storage.entries == old(storage.entries)
      ensures old(currentUser).Some? ==>
                && bookings == old(bookings) + [Booking(id, request.petId, request.walkerId, request.date,
                                                        request.time, request.service, request.duration,
                                                        request.notes, request.totalPrice, Pending, createdAt,
                                                        old(currentUser).value.id, None)]
                && showLogin == old(showLogin)
                && storage.entries == old(storage.entries)[Storage.BookingsKey := Storage.BookingList(bookings)]
      ensures pets == old(pets) && currentUser == old(currentUser)
    {
      if currentUser.None? {
        showLogin := true;
        return;
      }
      var booking := Booking(id, request.petId, request.walkerId, request.date, request.time,
                             request.service, request.duration, request.notes, request.totalPrice,
                             Pending, createdAt, currentUser.value.id, None);
      bookings := bookings + [booking];
      storage.SetItem(Storage.BookingsKey, Storage.BookingList(bookings));
    }

    /** `deletePet`: removes every pet with the id. */
    method DeletePet(id: int)
      requires Valid()
      modifies this, storage
      ensures Valid()
      ensures pets == WithoutPet(old(pets), id)
      ensures bookings == old(bookings) && currentUser == old(currentUser) && showLogin == old(showLogin)
      ensures storage.entries == old(storage.entries)[Storage.PetsKey := Storage.PetList(pets)]
    {
      pets := WithoutPet(pets, id);
      storage.SetItem(Storage.PetsKey, Storage.PetList(pets));
    }

    /** `updateBookingStatus`: overwrites the status of matching bookings, with no transition guard. */
    method UpdateBookingStatus(id: int, status: string)
      requires Valid()
      modifies this, storage
      ensures Valid()
      ensures bookings == WithStatus(old(bookings), id, status)
      ensures pets == old(pets) && currentUser == old(currentUser) && showLogin == old(showLogin)
      ensures storage.entries == old(storage.entries)[Storage.BookingsKey := Storage.BookingList(bookings)]
    {
      WithStatusUndismissed(bookings, id, status);
      bookings := WithStatus(bookings, id, status);
      storage.SetItem(Storage.BookingsKey, Storage.BookingList(bookings));
    }

    /** `handleLogin`: the mock login; any submitted credentials produce a user. */
    method HandleLogin(credentials: Credentials, id: int)
      requires Valid()
      modifies this, storage
      ensures Valid()
      ensures currentUser == Some(LoggedIn(credentials, id)) && !showLogin
      ensures pets == old(pets) && bookings == old(bookings)
      ensures storage.entries == old(storage.entries)[Storage.UserKey := Storage.UserRecord(currentUser.value)]
    {
      currentUser := Some(LoggedIn(credentials, id));
      showLogin := false;
      storage.SetItem(Storage.UserKey, Storage.UserRecord(currentUser.value));
    }

    /** `handleLogout`: the user becomes absent and its key is removed. */
    method HandleLogout()
      requires Valid()
      modifies this, storage
      ensures Valid()
      ensures currentUser == None
      ensures pets == old(pets) && bookings == old(bookings) && showLogin == old(showLogin)
      ensures storage.entries == old(storage.entries) - {Storage.UserKey}
    {
      currentUser := None;
      storage.RemoveItem(Storage.UserKey);
    }
  }

  /** The login in the sample scenario: "ana@example.com" is shown as "ana". */
  lemma LoginScenario()
    ensures LoggedIn(Credentials("ana@example.com", "x"), 1).name == "ana"
  {
    var email := "ana@example.com";
    assert email[3] == '@';
    assert email[..3] == "ana";
  }
}
