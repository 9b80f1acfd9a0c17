/**
 * The browser's `localStorage` with JSON serialisation taken as an exact
 * round trip: each key holds a typed value, and parsing returns what was
 * stringified.
 */
module Storage {
  import opened Wrappers
  import opened Domain

  datatype Value =
    | PetList(pets: seq<Pet>)
    | BookingList(bookings: seq<Booking>)
    | UserRecord(user: User)
    | ProviderList(providers: seq<Provider>)

  const PetsKey := "petcare_pets"
  const BookingsKey := "petcare_bookings"
  const UserKey := "petcare_user"

  /** The origin's key-value store, shared by every component. */
  class Store {
    var entries: map<string, Value>

    constructor (initial: map<string, Value>)
      ensures entries == initial
    {
      entries := initial;
    }

    /** `localStorage.getItem(key)`, `None` standing for `null`. */
    function GetItem(key: string): (r: Option<Value>)
      reads this
      ensures r.Some? <==> key in entries
      ensures r.Some? ==> r.value == entries[key]
    {
      if key in entries then Some(entries[key]) else None
    }

    method SetItem(key: string, v: Value)
      modifies this
      ensures entries == old(entries)[key := v]
    {
      entries := entries[key := v];
    }

    method RemoveItem(key: string)
      modifies this
      ensures entries == old(entries) - {key}
    {
      entries := entries - {key};
    }
  }

  /**
   * Each key the application reads holds the kind of value it parses from it.
   * The application has no fallback for anything else (`JSON.parse` would throw).
   */
  predicate WellFormed(entries: map<string, Value>)
  {
    && (PetsKey in entries ==> entries[PetsKey].PetList?)
    && (BookingsKey in entries ==> entries[BookingsKey].BookingList?)
    && (UserKey in entries ==> entries[UserKey].UserRecord?)
  }

  /** The pets loaded at start-up: the stored list, or none. */
  function LoadPets(entries: map<string, Value>): (r: seq<Pet>)
    requires WellFormed(entries)
    ensures PetsKey !in entries ==> r == []
    ensures PetsKey in entries ==> r == entries[PetsKey].pets
  {
    if PetsKey in entries then entries[PetsKey].pets else []
  }

  /** The bookings loaded at start-up, each stripped of its transient `dismiss` key. */
  function LoadBookings(entries: map<string, Value>): (r: seq<Booking>)
    requires WellFormed(entries)
    ensures Undismissed(r)
    ensures BookingsKey !in entries ==> r == []
    ensures BookingsKey in entries ==> |r| == |entries[BookingsKey].bookings|
    ensures BookingsKey in entries ==> forall i :: 0 <= i < |r| ==>
              r[i].(dismiss := entries[BookingsKey].bookings[i].dismiss) == entries[BookingsKey].bookings[i]
  {
    if BookingsKey in entries then StripAll(entries[BookingsKey].bookings) else []
  }

  /** The user restored at start-up, if one was stored. */
  function LoadUser(entries: map<string, Value>): (r: Option<User>)
    requires WellFormed(entries)
    ensures r.Some? <==> UserKey in entries
    ensures r.Some? ==> r.value == entries[UserKey].user
  {
    if UserKey in entries then Some(entries[UserKey].user) else None
  }

  /** The store holds exactly the current state under the application's keys. */
  predicate Synced(entries: map<string, Value>, pets: seq<Pet>, bookings: seq<Booking>, user: Option<User>)
  {
    && PetsKey in entries && entries[PetsKey] == PetList(pets)
    && BookingsKey in entries && entries[BookingsKey] == BookingList(bookings)
    && (user.None? ==> UserKey !in entries)
    && (user.Some? ==> UserKey in entries && entries[UserKey] == UserRecord(user.value))
  }

  /**
   * The store after the persistence effects have run: both collections
   * written whole, the user written when present and removed when absent.
   */
  function Persisted(entries: map<string, Value>, pets: seq<Pet>, bookings: seq<Booking>, user: Option<User>)
    : (r: map<string, Value>)
    ensures Synced(r, pets, bookings, user)
    ensures forall k :: k != PetsKey && k != BookingsKey && k != UserKey ==>
              (k in r <==> k in entries) && (k in r ==> r[k] == entries[k])
  {
    var written := entries[PetsKey := PetList(pets)][BookingsKey := BookingList(bookings)];
    if user.Some? then written[UserKey := UserRecord(user.value)] else written - {UserKey}
  }

  /** Persisting and then loading gives back the same state. */
  lemma PersistThenLoad(entries: map<string, Value>, pets: seq<Pet>, bookings: seq<Booking>, user: Option<User>)
    requires Undismissed(bookings)
    ensures WellFormed(Persisted(entries, pets, bookings, user))
    ensures LoadPets(Persisted(entries, pets, bookings, user)) == pets
    ensures LoadBookings(Persisted(entries, pets, bookings, user)) == bookings
    ensures LoadUser(Persisted(entries, pets, bookings, user)) == user
  {
    StripAllUndismissed(bookings);
  }

  /** Loading from a synced store gives back the state it was synced with. */
  lemma SyncedLoads(entries: map<string, Value>, pets: seq<Pet>, bookings: seq<Booking>, user: Option<User>)
    requires Synced(entries, pets, bookings, user) && Undismissed(bookings)
    ensures WellFormed(entries)
    ensures LoadPets(entries) == pets && LoadBookings(entries) == bookings && LoadUser(entries) == user
  {
    StripAllUndismissed(bookings);
  }
}
