/**
 * A client of the model: the sample session of logging in, adding a pet and
 * booking a walker, checked against the contracts alone.
 */
module Scenario {
  import opened Wrappers
  import opened Domain
  import Storage
  import App
  import Dashboard
  import BookingModal
  import Catalogue
  import LoginModal

  method Session() returns (app: App.AppState)
    ensures app.Valid()
  {
    var store := new Storage.Store(map[]);
    app := new App.AppState.Mount(store);
    assert app.pets == [] && app.bookings == [] && app.currentUser == None;

    // Booking without a user only raises the login prompt.
    var early := BookingRequest(1, "2024-01-01", "10:00", "Paseos", 1, "", 101, 15);
    app.CreateBooking(early, 5, "t0");
    assert app.bookings == [] && app.showLogin;

    var sent := LoginModal.Submit("ana@example.com", "x");
    assert sent == Some(Credentials("ana@example.com", "x"));
    app.HandleLogin(sent.value, 1000);
    App.LoginScenario();
    assert app.currentUser.value.name == "ana";

    Dashboard.AddPet(app, PetForm("Rex", "Labrador", "2", "10kg", ""), 2000, "t1");
    assert |app.pets| == 1 && app.pets[0].userId == Some(1000);

    var request := BookWalker(App.BookablePets(app.pets, app.currentUser.value));
    app.CreateBooking(request, 3000, "t2");
    assert app.bookings[0].status == Pending && app.bookings[0].totalPrice == 30;
    assert app.bookings[0].userId == 1000;
  }

  /** Two hours with the first seeded walker, who charges 15 an hour. */
  method BookWalker(pets: seq<Pet>) returns (request: BookingRequest)
    requires |pets| > 0
    ensures request.totalPrice == 30 && request.walkerId == 101 && request.duration == 2
  {
    var walker := Catalogue.WalkerSeed[0];
    var modal := new BookingModal.BookingModal.Open(walker, pets);
    assert modal.formData.service == "Paseos";
    modal.HandleChange(BookingModal.Date, "2024-01-01");
    assert BookingModal.FieldValue(modal.formData, BookingModal.Service) == "Paseos";
    modal.HandleChange(BookingModal.Time, "10:00");
    assert BookingModal.FieldValue(modal.formData, BookingModal.Service) == "Paseos";
    assert BookingModal.FieldValue(modal.formData, BookingModal.Date) == "2024-01-01";
    modal.HandleDurationChange(2);
    var sent := BookingModal.Submit(modal.walker, modal.formData);
    request := sent.value;
  }
}
