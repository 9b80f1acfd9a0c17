# PaseosPet state and form logic in Dafny

PaseosPet is a browser front end for booking dog walkers and pet sitters. Users log in
(a local mock), register pets, browse providers and create bookings. Everything is kept
in the browser's `localStorage`. This project models the logic inside its React components:

- the application state (`pets`, `bookings`, `currentUser`, and the login prompt raised by
  `createBooking`);
- the mutations that replace that state, and the effects that write it to the store;
- the owner filters that decide which pets and bookings each view sees;
- the form modals: default values, per-field edits, required-field checks, the
  password-match check and the price rule;
- the booking list helpers: id lookups with fallback labels, status labels and colours,
  and the actions offered on pending bookings;
- the provider catalogue: seed-if-absent loading, search, and the sorted location list;
- the guards on the provider and pet cards;
- the home-page carousel index.

Layout: one module per modelled component, each in its own file, plus shared modules for
the data model (`Domain`), the store (`Storage`), the built-ins (`Seqs`, `Text`), the
`Option` type (`Wrappers`) and a sample session (`Scenario`).

- `Storage` models `localStorage`. JSON is taken as an exact round trip.
- `App` holds the application state as the class `App.AppState`. It owns a shared
  `Storage.Store`, and `Valid()` states that the store mirrors the state.
- `Dashboard` operates on that same object through the application's setters.
- `Catalogue` serves both `WalkersTab.jsx` and `PetSittersTab.jsx`. Apart from their storage key,
  seed rows, displayed texts and the price unit passed to the card ("/hora" or "/día"), the two
  files run the same logic. Their lines match one to one:
  - load or seed: 14-29 in the sitters tab, 14-64 in the walkers tab;
  - filter: 32-40 and 67-76;
  - locations: 42 and 78.
- `Seqs` and `Text` stand for the JavaScript built-ins the components call: `filter`, `find`,
  `toLowerCase`, `includes`, `split` and the default `sort`.
- `Scenario` is a client that replays a sample session against the contracts alone:
  login, add a pet, book a walker.

Each state-changing method states its whole new state. That covers the store as well:
each mutation rewrites exactly the key whose collection it changed. The properties that
relate several calls are separate lemmas:
- delete after add;
- idempotent delete;
- last status update wins;
- persist then load, and reload after a session;
- a full round of the carousel.

Some behaviour of the code worth stating plainly:
- Bookings lose their transient `dismiss` key when they are loaded and when they are rendered.
  They are not stripped when they are written.
- The store has no fallback for a corrupt stored value. Mounting requires well-formed entries
  (`Storage.WellFormed`).
- When nobody is logged in, the dashboard shows no bookings. The tabs, by contrast, get every
  pet.
- `updateBookingStatus` overwrites any status and has no transition guard.
- The login handler accepts any non-empty email and password; `handleSubmit` checks only that
  both are non-empty. The `Submit` functions of the forms model `handleSubmit` alone. The
  browser's own checks, which run before it, are listed under "## Left out".
- A stored login is never restored on page load (see "## Findings"). `App.AppState.Mount`
  models the intended restore; `App.MountAsWritten` models what the components do.

## Model

| member | source | states |
|---|---|---|
| `Text.Lower` | src/components/tabs/WalkersTab.jsx:69-71 | lowering keeps the length, lowers each character, and leaves no upper-case letter |
| `Text.LowerIdempotent` | src/components/tabs/WalkersTab.jsx:68-72 | lowering an already lowered string changes nothing |
| `Text.Contains` | src/components/tabs/WalkersTab.jsx:69 | `includes`: the term is a prefix of the text or of one of its tails; `ContainsAt` relates it to positions |
| `Text.ContainsAt` | src/components/tabs/WalkersTab.jsx:69 | `includes` holds iff some suffix of the text starts with the term |
| `Text.LocalPart` | src/App.jsx:125 | the user name is a prefix of the email, contains no "@", and is followed by "@" unless it is the whole email |
| `Text.Below` | src/components/tabs/WalkersTab.jsx:78 | the order of the default `sort`: irreflexive, transitive and total (`BelowIrreflexive`, `BelowTransitive`, `BelowTrichotomy`) |
| `Text.BelowTrichotomy` | src/components/tabs/WalkersTab.jsx:78 | any two different strings are ordered one way and never both |
| `Text.LocalPartWithoutAt` | src/App.jsx:125 | an email without "@" is its own user name |
| `Text.SortedDistinct` | src/components/tabs/WalkersTab.jsx:78 | `[...new Set(xs)].sort()` is strictly increasing and holds exactly the values of `xs` |
| `Text.StrictlySortedUnique` | src/components/tabs/WalkersTab.jsx:78 | two strictly sorted lists with the same values are equal, so the sorted distinct list is unique |
| `Seqs.Filter` | src/App.jsx:102 | `filter` keeps only elements that pass and never grows the list; `FilterCounts`, `FilterIsSubsequence` and `FilterMembership` give multiplicity, order and both directions of membership |
| `Seqs.FilterCounts` | src/App.jsx:102 | each element is kept exactly as often as it occurs if it passes, and never otherwise |
| `Seqs.FilterIsSubsequence` | src/App.jsx:102 | `filter` never reorders |
| `Seqs.Find` | src/components/tabs/BookingsTab.jsx:9-10 | `find` returns the first element that matches, or nothing when none matches |
| `Domain.Strip` | src/components/tabs/BookingsTab.jsx:64 | the stripped booking has no `dismiss` key and agrees with the original on every other field |
| `Domain.StripAll` | src/App.jsx:38 | the loaded bookings keep their number and order, lose `dismiss`, and keep every other field |
| `Domain.StripAllUndismissed` | src/App.jsx:38 | stripping bookings that have no `dismiss` key is the identity |
| `Storage.Store.GetItem` | src/App.jsx:32-34 | `getItem` is present iff the key is stored, and then returns the stored value |
| `Storage.Store.SetItem` | src/App.jsx:45 | `setItem` overwrites one key and leaves the others alone |
| `Storage.Store.RemoveItem` | src/App.jsx:56 | `removeItem` deletes one key and leaves the others alone |
| `Storage.LoadPets` | src/App.jsx:32-36 | an absent pets key loads no pets; a stored list is loaded as stored |
| `Storage.LoadBookings` | src/App.jsx:33-40 | loaded bookings never carry `dismiss`; an absent key loads none; otherwise the i-th loaded booking is the i-th stored one without `dismiss` |
| `Storage.LoadUser` | src/App.jsx:34-41 | a user is read iff the user key is stored, and it is the stored user |
| `Storage.Persisted` | src/App.jsx:44-58 | after the effects the store holds both collections whole, holds the user iff there is one, and keeps every other key |
| `Storage.PersistThenLoad` | src/App.jsx:31-58 | loading what the effects wrote gives back the same pets, bookings and user |
| `Storage.SyncedLoads` | src/App.jsx:31-58 | a store that mirrors the state loads back exactly that state |
| `App.WithoutPet` | src/App.jsx:101-102 | deleting removes every pet with the id and keeps each other pet as often as before, in order |
| `App.WithoutPetUnknown` | src/App.jsx:102 | deleting an id no pet carries changes nothing |
| `App.WithoutPetIdempotent` | src/App.jsx:102 | deleting the same id twice equals deleting it once |
| `App.AddThenDelete` | src/App.jsx:60-102 | adding a pet with a fresh id and then deleting that id restores the pet list |
| `App.WithStatus` | src/App.jsx:109-114 | the update keeps length and order, changes only `status`, and only on bookings with the id |
| `App.WithStatusUnknown` | src/App.jsx:109-114 | updating an id no booking carries changes nothing |
| `App.WithStatusLastWins` | src/App.jsx:109-114 | two updates of the same id equal the last one alone |
| `App.WithStatusUndismissed` | src/App.jsx:109-114 | a status update never brings back the `dismiss` key |
| `App.VisiblePets` | src/App.jsx:179 | the walker and sitter tabs get every pet without a user; with one, each of the user's pets as often as it occurs and no other pet, in order |
| `App.BookablePets` | src/App.jsx:247 | the booking form gets each of the current user's pets as often as it occurs and no other pet, in order |
| `App.LoggedIn` | src/App.jsx:121-126 | the new user has the given id and email, and a name that is the email's part before the first "@" |
| `App.LoginScenario` | src/App.jsx:125 | logging in as "ana@example.com" gives the name "ana" |
| `App.MountAsWritten` | src/components/layout/NotificationManager.jsx:6-12 | mounting as the components run it: the child's effect removes the user key first, so pets and bookings are loaded, no user is restored, the key ends up absent, and every other key is kept |
| `App.MountIntended` | src/App.jsx:31-58 | mounting as the load effect means it: the stored pets, bookings (without `dismiss`) and user are restored, the store mirrors them, and other keys are kept |
| `App.ReloadRestoresSession` | src/App.jsx:31-58 | reloading after any session gives back its pets, bookings and user |
| `App.ReloadLosesUser` | src/components/layout/NotificationManager.jsx:6-12 | as written, a reload keeps pets and bookings but logs the user out |
| `App.StoredUserLost` | src/App.jsx:34-41 | a store holding a saved user: the intended mount restores it, the written one does not |
| `App.AppState.Mount` | src/App.jsx:31-58 | mounting leaves exactly the state and store of `MountIntended`, with the login prompt closed |
| `App.AppState.AddPet` | src/App.jsx:60-67 | one pet is appended with the form's fields, the given id and timestamp, and the current user as owner; only the pets key is rewritten |
| `App.AppState.CreateBooking` | src/App.jsx:75-92 | with no user: bookings and store unchanged, login prompt raised; with one: one pending booking owned by the user is appended |
| `App.AppState.DeletePet` | src/App.jsx:101-102 | the pets become `WithoutPet` of the old pets and are written back; everything else is unchanged |
| `App.AppState.UpdateBookingStatus` | src/App.jsx:109-114 | the bookings become `WithStatus` of the old bookings and are written back, with no transition guard |
| `App.AppState.HandleLogin` | src/App.jsx:121-128 | the current user becomes `LoggedIn(credentials, id)` and is stored; the login prompt closes |
| `App.AppState.HandleLogout` | src/App.jsx:144-145 | the current user becomes absent and the user key is removed |
| `Dashboard.UserPets` | src/components/views/DashboardUser.jsx:79 | nothing without a user; else each of the user's pets as often as it occurs and no other, in order |
| `Dashboard.UserBookings` | src/components/views/DashboardUser.jsx:80 | nothing without a user; else each of the user's bookings as often as it occurs and no other, in order |
| `Dashboard.OwnerFilters` | src/components/views/DashboardUser.jsx:79 | with a user, the tabs, the booking form and the dashboard see the same pets; without one, the tabs see all and the dashboard none |
| `Dashboard.Recent` | src/components/views/DashboardUser.jsx:126 | the listing is a prefix of the user's bookings with at most three entries |
| `Dashboard.ShowsSeeAll` | src/components/views/DashboardUser.jsx:140 | the "see all" link is shown iff the listing leaves some bookings out |
| `Dashboard.AddPet` | src/components/views/DashboardUser.jsx:34-49 | with no user: nothing changes; with one: one pet owned by that user is appended and written back |
| `Dashboard.DeletePet` | src/components/views/DashboardUser.jsx:57-58 | same effect as the application's delete, through its setter; bookings, user and login prompt unchanged |
| `Dashboard.UpdateBookingStatus` | src/components/views/DashboardUser.jsx:66-71 | same effect as the application's status update, through its setter; pets, user and login prompt unchanged |
| `AddPetModal.Set` | src/components/modals/AddPetModal.jsx:15-18 | an edit sets the named field and keeps every other field |
| `AddPetModal.Submit` | src/components/modals/AddPetModal.jsx:20-34 | the form is sent iff name, breed, age and weight are non-empty, and it is sent unchanged |
| `AddPetModal.BlankRejected` | src/components/modals/AddPetModal.jsx:7-13 | submitting the initial form is rejected |
| `AddPetModal.SpecialNeedsOptional` | src/components/modals/AddPetModal.jsx:22-24 | the special-needs value never decides whether the form is accepted |
| `AddPetModal.AddPetModal.constructor` | src/components/modals/AddPetModal.jsx:7-13 | the form opens with every field empty |
| `AddPetModal.AddPetModal.HandleChange` | src/components/modals/AddPetModal.jsx:15-18 | one change event sets only the named field |
| `RegisterModal.Set` | src/components/modals/RegisterModal.jsx:19-22 | an edit sets the named field and keeps every other field |
| `RegisterModal.Submit` | src/components/modals/RegisterModal.jsx:24-48 | any empty field gives the incomplete-fields error, checked first; otherwise differing passwords give the mismatch error; otherwise exactly name, email and password are sent |
| `RegisterModal.RegisterModal.constructor` | src/components/modals/RegisterModal.jsx:12-17 | the form opens with every field empty |
| `RegisterModal.RegisterModal.HandleChange` | src/components/modals/RegisterModal.jsx:19-22 | one change event sets only the named field |
| `LoginModal.IsFormValid` | src/components/modals/LoginModal.jsx:21 | the form is valid when email and password are both non-empty; `Submit` and `SubmitDisabled` state what it decides |
| `LoginModal.Submit` | src/components/modals/LoginModal.jsx:21-34 | credentials are sent iff email and password are both non-empty, and they are exactly those two |
| `LoginModal.SubmitDisabled` | src/components/modals/LoginModal.jsx:119 | the button is disabled iff a submit would be rejected |
| `LoginModal.LoginModal.constructor` | src/components/modals/LoginModal.jsx:17-18 | the form opens with an empty email and password |
| `LoginModal.LoginModal.SetEmail` | src/components/modals/LoginModal.jsx:74 | typing in the email input sets only the email |
| `LoginModal.LoginModal.SetPassword` | src/components/modals/LoginModal.jsx:94 | typing in the password input sets only the password |
| `BookingModal.Initial` | src/components/modals/BookingModal.jsx:7-14 | the first pet (none without pets), the first service (empty without services), one hour (a select option), and empty date, time and notes |
| `BookingModal.Estimate` | src/components/modals/BookingModal.jsx:178 | the shown estimate is rate times hours; `Submit` sends it and `TotalPriceBounds` bounds it |
| `BookingModal.SetText` | src/components/modals/BookingModal.jsx:16-19 | an edit sets the named field and keeps the other fields, the pet and the duration |
| `BookingModal.Submit` | src/components/modals/BookingModal.jsx:25-42 | nothing is sent while pet, date, time or service is empty; otherwise every form field is sent with the walker id, and `totalPrice` is the displayed estimate |
| `BookingModal.TotalPriceBounds` | src/components/modals/BookingModal.jsx:148-158 | with a duration from the select, the total lies between one and six hours of the rate |
| `BookingModal.InitialNeedsDateAndTime` | src/components/modals/BookingModal.jsx:7-14 | a fresh form is rejected; with a pet and a service available, entering a date and a time makes it acceptable |
| `BookingModal.PriceScenario` | src/components/modals/BookingModal.jsx:36 | two hours at 15 are submitted as 30 |
| `BookingModal.BookingModal.Open` | src/components/modals/BookingModal.jsx:7-14 | the form starts with the first pet or none, the first service or none, one hour, and empty date, time and notes |
| `BookingModal.BookingModal.HandleChange` | src/components/modals/BookingModal.jsx:16-19 | one change event sets only the named text field |
| `BookingModal.BookingModal.HandlePetChange` | src/components/modals/BookingModal.jsx:16-19 | choosing a pet sets only the pet |
| `BookingModal.BookingModal.HandleDurationChange` | src/components/modals/BookingModal.jsx:21-23 | choosing a duration sets only the duration, which stays within 1 to 6 |
| `BookingsTab.ProviderLabel` | src/components/tabs/BookingsTab.jsx:80 | shows the name of the first provider with the id; the fallback when none has it or that name is empty |
| `BookingsTab.PetLabel` | src/components/tabs/BookingsTab.jsx:93 | shows the name of the first pet with the id; the fallback when none has it or that name is empty |
| `BookingsTab.StatusText` | src/components/tabs/BookingsTab.jsx:22-30 | the four known statuses get their Spanish labels; any other status is shown unchanged |
| `BookingsTab.StatusTextDistinguishesKnown` | src/components/tabs/BookingsTab.jsx:22-30 | different known statuses get different labels |
| `BookingsTab.StatusColor` | src/components/tabs/BookingsTab.jsx:12-20 | the grey default is used iff the status is unknown |
| `BookingsTab.StatusColorDistinguishesKnown` | src/components/tabs/BookingsTab.jsx:12-20 | different known statuses get different colours |
| `BookingsTab.Actions` | src/components/tabs/BookingsTab.jsx:128-148 | actions are offered iff the booking is pending; a pending booking gets both cancel and confirm, and every action updates this booking to one of those |
| `BookingsTab.ActionsOfferedOnce` | src/components/tabs/BookingsTab.jsx:128-148 | after either action is applied, that booking offers no more actions |
| `BookingsTab.Rendered` | src/components/tabs/BookingsTab.jsx:41-64 | no bookings without a user; otherwise all of them, in order, without `dismiss` |
| `Catalogue.SeedIfAbsent` | src/components/tabs/WalkersTab.jsx:14-64 | a stored list is used as is and nothing is written; an absent key gets the seed written; afterwards the key holds the displayed list |
| `Catalogue.SeedIfAbsentStable` | src/components/tabs/WalkersTab.jsx:16-20 | a second mount finds the same providers and writes nothing |
| `Catalogue.Matches` | src/components/tabs/WalkersTab.jsx:67-76 | the search test: lowered name or a lowered service contains the lowered term, and no location is selected or it is the provider's |
| `Catalogue.Search` | src/components/tabs/WalkersTab.jsx:67-76 | a provider is kept iff it `Matches`, as often as it occurs; the kept providers stay in order |
| `Catalogue.SearchNothingKeepsAll` | src/components/tabs/WalkersTab.jsx:67-76 | an empty term and no location keep every provider |
| `Catalogue.SearchIgnoresCase` | src/components/tabs/WalkersTab.jsx:68-72 | terms that differ only in letter case select the same providers |
| `Catalogue.SearchLoweredTerm` | src/components/tabs/WalkersTab.jsx:68-72 | lowering the term first changes nothing |
| `Catalogue.LocationsOf` | src/components/tabs/WalkersTab.jsx:78 | `map((w) => w.location)` takes each provider's location, in order |
| `Catalogue.Locations` | src/components/tabs/WalkersTab.jsx:78 | the location options are strictly increasing (hence distinct) and are exactly the providers' locations |
| `Catalogue.LocationsExact` | src/components/tabs/WalkersTab.jsx:78 | any strictly sorted listing of exactly those locations is the option list |
| `Catalogue.WalkerSeedLocations` | src/components/tabs/WalkersTab.jsx:22-59 | the seeded walkers offer Centro, Este, Norte in that order |
| `Catalogue.PetSitterSeedLocations` | src/components/tabs/PetSittersTab.jsx:22-26 | the seeded sitters offer Oriente, Poniente, Sur in that order |
| `Catalogue.ProviderTab.Mount` | src/components/tabs/PetSittersTab.jsx:14-30 | mounting a tab sets its providers and the store as `SeedIfAbsent` says, with empty filters, so every provider is shown |
| `Catalogue.ProviderTab.SetSearchTerm` | src/components/tabs/WalkersTab.jsx:98 | typing sets only the search term, and the cards shown become the search with the new term |
| `Catalogue.ProviderTab.SetSelectedLocation` | src/components/tabs/WalkersTab.jsx:105 | choosing a zone sets only the selected location, and the cards shown become the search with the new zone |
| `Catalogue.ProviderTab.Shown` | src/components/tabs/WalkersTab.jsx:67-76 | the cards shown are each provider that matches the current term and zone, as often as it occurs, in order |
| `Catalogue.ProviderTab.LocationOptions` | src/components/tabs/WalkersTab.jsx:78 | the zone options are sorted, each once, and are exactly the providers' locations |
| `ProfileCard.ButtonDisabled` | src/components/common/ProfessionalProfileCard.jsx:11 | booking is blocked without a user or without pets; `AlertMessage` and `ActionClick` state what follows from it |
| `ProfileCard.AlertMessage` | src/components/common/ProfessionalProfileCard.jsx:11-12 | the login prompt without a user, the add-a-pet prompt with a user but no pets, and no alert iff the button is enabled |
| `ProfileCard.ActionClick` | src/components/common/ProfessionalProfileCard.jsx:75-76 | a click selects the card's own provider, and does so iff there is a user with at least one pet |
| `PetCard.IsUserPet` | src/components/common/PetCard.jsx:14 | the owner test: a user is logged in and the pet's owner is that user; `Buttons` states what it guards |
| `PetCard.Buttons` | src/components/common/PetCard.jsx:33-56 | no buttons unless the pet is the user's; edit iff `onEdit` is given; delete iff `onDelete` is given; each carries the pet's id |
| `PetCard.ImageSource` | src/components/common/PetCard.jsx:24 | a non-empty `imageUrl` is used; a missing or empty one falls back to the placeholder |
| `HomeTab.Next` | src/components/tabs/HomeTab.jsx:39 | the next index stays within the slides |
| `HomeTab.Prev` | src/components/tabs/HomeTab.jsx:43 | the previous index stays within the slides |
| `HomeTab.WrapAround` | src/components/tabs/HomeTab.jsx:38-44 | next from the last slide is the first; previous from the first is the last |
| `HomeTab.NextPrevInverse` | src/components/tabs/HomeTab.jsx:38-44 | previous after next, and next after previous, restore the index |
| `HomeTab.Advance` | src/components/tabs/HomeTab.jsx:39 | any number of steps forward stays within the slides |
| `HomeTab.AdvanceWithin` | src/components/tabs/HomeTab.jsx:39 | steps that do not pass the last slide count up one by one |
| `HomeTab.AdvanceCompose` | src/components/tabs/HomeTab.jsx:39 | a steps and then b steps equal a + b steps |
| `HomeTab.FullRound` | src/components/tabs/HomeTab.jsx:39 | as many steps as there are slides return to the starting slide |
| `HomeTab.Carousel.constructor` | src/components/tabs/HomeTab.jsx:36 | the carousel starts on the first slide |
| `HomeTab.Carousel.NextSlide` | src/components/tabs/HomeTab.jsx:38-40 | the right arrow moves the index to `Next` of the old one |
| `HomeTab.Carousel.PrevSlide` | src/components/tabs/HomeTab.jsx:42-44 | the left arrow moves the index to `Prev` of the old one |
| `HomeTab.Carousel.SelectSlide` | src/components/tabs/HomeTab.jsx:158 | clicking dot i sets the index to i |

## Left out

- Toast notifications are not modelled. Neither are modal visibility flags or tab routing. The one
  exception is the login prompt that `createBooking` raises.
- The `onSelectWalker`/`onSelectPetSitter` callbacks (`src/App.jsx:180-202`) are not modelled. They
  open the booking modal or the login prompt, which is modal visibility.
- The Google/Supabase login stub (`src/App.jsx:136-142`) is not modelled. Nor are the unwired
  `onRegister`/`onGoogleRegister` props: registration ends at the payload the form would send.
- The carousel's seven-second `setInterval` is not modelled, and neither is the swipe gesture (float
  offset times velocity). The providers' float `rating` is omitted.
- JSON is taken as an exact round trip. In the source, a stored value that is not JSON makes
  `JSON.parse` throw, and a non-array bookings value makes `.map` throw. A pets value or a user of
  another shape is accepted silently and breaks later use. The model requires well-formed entries
  instead (`Storage.WellFormed`). A stored `"null"` user is not modelled.
- `App.AppState.Mount` gives only the net result of mounting. React first runs the persistence
  effects on the initial empty state, then again on the loaded state. The model collapses those
  intermediate writes.
- `Date.now()` ids and `toISOString()` timestamps are parameters. Nothing makes ids unique, so the
  delete round trip assumes a fresh id.
- `App.AppState.AddPet` and `App.AppState.CreateBooking` take typed form records that have no `id`
  field. In the source, `...petData` and `...bookingData` come after `id: Date.now()` and would
  override it; the id is the clock value only because no form sends an `id`.
- The browser's constraint validation, which runs before any `handleSubmit`, is not modelled.
  The inputs carry `required`, `type="email"` and a date `min`. `required` repeats the non-empty
  checks already modelled. The other two have effects the model does not capture:
  - `LoginModal.Submit` accepts an email without a valid address shape (such as "ana"), which
    the browser rejects (`type="email"`, src/components/modals/LoginModal.jsx:72).
  - `RegisterModal.Submit` accepts a malformed email, which the browser rejects
    (src/components/modals/RegisterModal.jsx:87).
  - `BookingModal.Submit` accepts a date before today, which the browser rejects
    (`min`, src/components/modals/BookingModal.jsx:127; the clock is not modelled).
- Prices and the rate are integers. The source's `price` is a JavaScript number, so fractional
  prices and the float product in the estimate are not modelled.
- Ids have a single type. In the source, the pet select turns `petId` into a string, and lookups
  compare it with `===` against numeric ids. `parseInt` on the duration is taken as exact. The
  JavaScript falsiness of a numeric id 0 is not modelled: an absent pet is `None`.
- `Text.Lower` lowers ASCII letters only. JavaScript's `toLowerCase` is Unicode-aware.
- `Text.Below` orders strings by code point. JavaScript's `sort` compares UTF-16 code units. The two
  differ only for characters outside the Basic Multilingual Plane.
- Stale closures and several tabs sharing one store are not modelled. Every operation runs to
  completion on the current state.
- `BookingDataManager.jsx` and `PetDataManager.jsx` are imported nowhere and repeat persistence
  already modelled through `App`, so they are not part of this model.
- `NotificationManager.jsx` is modelled only at mount (`App.MountAsWritten`). Its toast container is
  presentation. After mount, its effect writes or removes the user key exactly as `App`'s own effect
  does, so it adds nothing there.
- `Header.jsx`, `Footer.jsx`, `UserProfileNav.jsx`, `PetsTab.jsx` and `PetAvatarCard.jsx` are
  presentation and are not part of this model. So are JSX, CSS and animation everywhere.
- The dashboard's booking rows (pet and walker names, the formatted date) are presentation and are
  not modelled. The model keeps only which bookings are listed.

## Findings

| source | as written | input that shows it | evidently intended | confidence | as-written member | corrected member |
|---|---|---|---|---|---|---|
| src/components/layout/NotificationManager.jsx:6-12 | `NotificationManager` is a child of `App`, and React runs its effect first on mount. With no user yet, it removes `petcare_user` before `App`'s load effect (src/App.jsx:34) reads it, so a saved login is never restored | a store holding `petcare_user` = `{id: 1, email: "ana@example.com", name: "ana"}` at page load: `currentUser` stays `null` and the key ends up removed | a reload restores the saved user, as the load effect at src/App.jsx:34-41 is written to do | not executed; relies on React running a child's effects before its parent's | `App.MountAsWritten`, `App.ReloadLosesUser`, `App.StoredUserLost` | `App.MountIntended`, `App.ReloadRestoresSession`, `App.AppState.Mount` |
