/**
 * The bookings list (`BookingsTab`): id lookups with fallback labels,
 * status labels and colours, and the actions offered on pending bookings.
 */
module BookingsTab {
  import opened Wrappers
  import opened Domain
  import opened Seqs
  import App

  /** `(w) => w.id === id` */
  function ProviderWithId(id: int): Provider -> bool
  {
    (w: Provider) => w.id == id
  }

  /** `(p) => p.id === id` */
  function PetWithId(id: int): Pet -> bool
  {
    (p: Pet) => p.id == id
  }

  const ProviderNotFound := "Cuidador no encontrado"
  const PetNotFound := "Mascota no encontrada"

  /**
   * `getWalkerById(id)?.name || 'Cuidador no encontrado'`: the name of the
   * first provider with the id, or the fallback when there is none (or its
   * name is empty).
   */
  function ProviderLabel(walkers: seq<Provider>, id: int): (text: string)
    ensures (forall i :: 0 <= i < |walkers| ==> walkers[i].id != id) ==> text == ProviderNotFound
    ensures forall i ::
              (0 <= i < |walkers| && walkers[i].id == id && forall j :: 0 <= j < i ==> walkers[j].id != id) ==>
                text == if walkers[i].name != "" then walkers[i].name else ProviderNotFound
  {
    var found := Find(walkers, ProviderWithId(id));
    if found.Some? && found.value.name != "" then found.value.name else ProviderNotFound
  }

  /** `getPetById(id)?.name || 'Mascota no encontrada'`, likewise for pets. */
  function PetLabel(pets: seq<Pet>, id: int): (text: string)
    ensures (forall i :: 0 <= i < |pets| ==> pets[i].id != id) ==> text == PetNotFound
    ensures forall i ::
              (0 <= i < |pets| && pets[i].id == id && forall j :: 0 <= j < i ==> pets[j].id != id) ==>
                text == if pets[i].name != "" then pets[i].name else PetNotFound
  {
    var found := Find(pets, PetWithId(id));
    if found.Some? && found.value.name != "" then found.value.name else PetNotFound
  }

  predicate Known(status: string)
  {
    status == Confirmed || status == Pending || status == Cancelled || status == Completed
  }

  /** `getStatusText`: the Spanish label of a known status; any other status is shown as it is. */
  function StatusText(status: string): (text: string)
    ensures !Known(status) ==> text == status
    ensures status == Confirmed ==> text == "Confirmada"
    ensures status == Pending ==> text == "Pendiente"
    ensures status == Cancelled ==> text == "Cancelada"
    ensures status == Completed ==> text == "Completada"
  {
    if status == Confirmed then "Confirmada"
    else if status == Pending then "Pendiente"
    else if status == Cancelled then "Cancelada"
    else if status == Completed then "Completada"
    else status
  }

  /** Different known statuses get different labels. */
  lemma StatusTextDistinguishesKnown(s: string, t: string)
    requires Known(s) && Known(t) && s != t
    ensures StatusText(s) != StatusText(t)
  {
  }

  const DefaultColor := "bg-gray-100 text-gray-800 border border-gray-300"

  /** `getStatusColor`: a class per known status, grey for anything else. */
  function StatusColor(status: string): (classes: string)
    ensures classes == DefaultColor <==> !Known(status)
  {
    if status == Confirmed then "bg-green-100 text-green-800 border border-green-300"
    else if status == Pending then "bg-yellow-100 text-yellow-800 border border-yellow-300"
    else if status == Cancelled then "bg-red-100 text-red-800 border border-red-300"
    else if status == Completed then "bg-blue-100 text-blue-800 border border-blue-300"
    else DefaultColor
  }

  /** Different known statuses get different colours. */
  lemma StatusColorDistinguishesKnown(s: string, t: string)
    requires Known(s) && Known(t) && s != t
    ensures StatusColor(s) != StatusColor(t)
  {
  }

  /** A click on one of the action buttons: `onUpdateStatus(id, status)`. */
  datatype Action = UpdateStatus(bookingId: int, status: string)

  /** The buttons rendered for a booking: cancel and confirm, and only while it is pending. */
  function Actions(b: Booking): (r: seq<Action>)
    ensures r != [] <==> b.status == Pending
    ensures b.status == Pending ==> UpdateStatus(b.id, Cancelled) in r && UpdateStatus(b.id, Confirmed) in r
    ensures forall a :: a in r ==> a.bookingId == b.id && (a.status == Confirmed || a.status == Cancelled)
  {
    if b.status == Pending then [UpdateStatus(b.id, Cancelled), UpdateStatus(b.id, Confirmed)] else []
  }

  /** Taking either action leaves that booking with no actions: each decision is offered once. */
  lemma ActionsOfferedOnce(bs: seq<Booking>, i: int, a: Action)
    requires 0 <= i < |bs| && a in Actions(bs[i])
    ensures Actions(App.WithStatus(bs, a.bookingId, a.status)[i]) == []
  {
  }

  /**
   * The bookings as rendered: none without a user; otherwise every booking
   * in order, each without its transient `dismiss` key.
   */
  function Rendered(bookings: seq<Booking>, user: Option<User>): (r: seq<Booking>)
    ensures user.None? ==> r == []
    ensures user.Some? ==> |r| == |bookings|
    ensures Undismissed(r)
    ensures forall i :: 0 <= i < |r| ==> r[i].(dismiss := bookings[i].dismiss) == bookings[i]
  {
    if user.None? then [] else StripAll(bookings)
  }
}
