/** RideSharingSystem: the registries of users, drivers and riders, the one
    admin, the seeded start-up data, registration, the login lookups and the
    passenger's request-and-complete ride flow. */
module Registry {
  import opened Accounts
  import opened Payments
  import opened Vehicles
  import opened Rides

  /** The administrator. Its own list of all users is the system's users
      list itself and is only displayed, so it is not repeated here. */
  class Admin {
    const account: Account

    constructor (userId: string, name: string, phone: string, password: string)
      ensures account == Account(userId, name, phone, password)
    {
      account := Account(userId, name, phone, password);
    }
  }

  /** An entry of the users list: one of the three subclasses of User. */
  datatype User = AdminUser(admin: Admin) | DriverUser(driver: Driver) | RiderUser(rider: Rider)

  /** What the passenger's ride request ends in. */
  datatype RideRequest =
    | NoDriversAvailable
    | Requested(ride: Ride, outcome: Outcome)

  function DriverAccounts(drivers: seq<Driver>): (accounts: seq<Account>)
    ensures |accounts| == |drivers|
    ensures forall i :: 0 <= i < |drivers| ==> accounts[i] == drivers[i].account
  {
    seq(|drivers|, i requires 0 <= i < |drivers| => drivers[i].account)
  }

  function RiderAccounts(riders: seq<Rider>): (accounts: seq<Account>)
    ensures |accounts| == |riders|
    ensures forall i :: 0 <= i < |riders| ==> accounts[i] == riders[i].account
  {
    seq(|riders|, i requires 0 <= i < |riders| => riders[i].account)
  }

  /** The accounts initializeSystem seeds, in list order. */
  const AdminSeed := Account("A100", "EI MAMA", "01831650978", "admin123")
  const DriverSeeds := [
    Account("D100", "Abdur Rahim", "01735537376", "driver1"),
    Account("D101", "Abdul Karim", "0175550102", "driver2"),
    Account("D102", "Suleman", "0175550103", "driver3")]
  const RiderSeeds := [
    Account("R100", "Tanvir", "01303910166", "rider1"),
    Account("R101", "Tuser", "01760049326", "rider2"),
    Account("R102", "Tousiq", "01712345678", "rider3")]

  /** The users-list entries of a list of drivers, in order. */
  function DriverUsers(drivers: seq<Driver>): (users: seq<User>)
    ensures |users| == |drivers|
    ensures forall i :: 0 <= i < |drivers| ==> users[i] == DriverUser(drivers[i])
  {
    seq(|drivers|, i requires 0 <= i < |drivers| => DriverUser(drivers[i]))
  }

  /** The users-list entries of a list of riders, in order. */
  function RiderUsers(riders: seq<Rider>): (users: seq<User>)
    ensures |users| == |riders|
    ensures forall i :: 0 <= i < |riders| ==> users[i] == RiderUser(riders[i])
  {
    seq(|riders|, i requires 0 <= i < |riders| => RiderUser(riders[i]))
  }

  /** The users list holds the admin once, each entry of the drivers list and
      each entry of the riders list, as many times as they appear there, and
      nothing else. */
  ghost predicate Registered(users: seq<User>, admin: Admin, drivers: seq<Driver>, riders: seq<Rider>)
  {
    multiset(users) == multiset{AdminUser(admin)} + multiset(DriverUsers(drivers)) + multiset(RiderUsers(riders))
  }

  /** Registering a driver appends one entry to both lists and keeps them
      registered. */
  lemma {:induction false} RegisteredAfterDriver(users: seq<User>, admin: Admin, drivers: seq<Driver>, riders: seq<Rider>, d: Driver)
    requires Registered(users, admin, drivers, riders)
    ensures Registered(users + [DriverUser(d)], admin, drivers + [d], riders)
  {
    assert DriverUsers(drivers + [d]) == DriverUsers(drivers) + [DriverUser(d)];
  }

  /** Registering a rider appends one entry to both lists and keeps them
      registered. */
  lemma {:induction false} RegisteredAfterRider(users: seq<User>, admin: Admin, drivers: seq<Driver>, riders: seq<Rider>, r: Rider)
    requires Registered(users, admin, drivers, riders)
    ensures Registered(users + [RiderUser(r)], admin, drivers, riders + [r])
  {
    assert RiderUsers(riders + [r]) == RiderUsers(riders) + [RiderUser(r)];
  }

  lemma SeedRegistered(admin: Admin, drivers: seq<Driver>, riders: seq<Rider>)
    requires |drivers| == 3 && |riders| == 3
    ensures Registered([AdminUser(admin), DriverUser(drivers[0]), DriverUser(drivers[1]), DriverUser(drivers[2]),
                        RiderUser(riders[0]), RiderUser(riders[1]), RiderUser(riders[2])],
                       admin, drivers, riders)
  {
    var ds := DriverUsers(drivers);
    var rs := RiderUsers(riders);
    assert ds == [DriverUser(drivers[0]), DriverUser(drivers[1]), DriverUser(drivers[2])];
    assert rs == [RiderUser(riders[0]), RiderUser(riders[1]), RiderUser(riders[2])];
    assert [AdminUser(admin), DriverUser(drivers[0]), DriverUser(drivers[1]), DriverUser(drivers[2]),
            RiderUser(riders[0]), RiderUser(riders[1]), RiderUser(riders[2])] == [AdminUser(admin)] + ds + rs;
  }

  /** The three drivers initializeSystem creates: their accounts, vehicles,
      all free and with no completed rides. */
  ghost predicate SeededDrivers(drivers: seq<Driver>)
    reads drivers
  {
    |drivers| == 3 &&
    DriverAccounts(drivers) == DriverSeeds &&
    drivers[0].vehicle == Car("ABC123", "Toyota Camry") &&
    drivers[1].vehicle == Car("XYZ789", "Honda CR-V") &&
    drivers[2].vehicle == Bike("BIKE001", "TVS") &&
    forall d :: d in drivers ==> d.available && d.completedRides == []
  }

  /** The three riders initializeSystem creates: their accounts, payment
      methods, no current ride and an empty history. */
  ghost predicate SeededRiders(riders: seq<Rider>)
    reads riders
  {
    |riders| == 3 &&
    RiderAccounts(riders) == RiderSeeds &&
    riders[0].paymentMethod == CreditCard("4111111111111111", "12/25") &&
    riders[1].paymentMethod == DigitalWallet("mary@payapp.com") &&
    riders[2].paymentMethod == HandCash &&
    forall r :: r in riders ==> r.currentRide == null && r.rideHistory == []
  }

  class RideSharingSystem {
    var users: seq<User>
    var drivers: seq<Driver>
    var riders: seq<Rider>
    const admin: Admin

    /** users holds the admin once and each driver and rider as often as
        they are registered, and nothing else. */
    ghost predicate Valid()
      reads this
    {
      Registered(users, admin, drivers, riders)
    }

    /** initializeSystem: the admin, three drivers (two cars, one bike) and
        three riders (card, wallet, cash), all new, drivers free, no rides. */
    constructor ()
      ensures Valid()
      ensures admin.account == AdminSeed && fresh(admin)
      ensures |drivers| == 3 && |riders| == 3
      ensures users == [AdminUser(admin), DriverUser(drivers[0]), DriverUser(drivers[1]), DriverUser(drivers[2]),
                        RiderUser(riders[0]), RiderUser(riders[1]), RiderUser(riders[2])]
      ensures SeededDrivers(drivers) && SeededRiders(riders)
      ensures forall d :: d in drivers ==> fresh(d)
      ensures forall r :: r in riders ==> fresh(r)
    {
      var theAdmin := new Admin("A100", "EI MAMA", "01831650978", "admin123");
      var ds := SeedDrivers();
      var rs := SeedRiders();
      admin := theAdmin;
      drivers := ds;
      riders := rs;
      users := [AdminUser(theAdmin), DriverUser(ds[0]), DriverUser(ds[1]), DriverUser(ds[2]),
                RiderUser(rs[0]), RiderUser(rs[1]), RiderUser(rs[2])];
      SeedRegistered(theAdmin, ds, rs);
    }

    /** The three default drivers, in the order they are added. */
    static method SeedDrivers() returns (drivers: seq<Driver>)
      ensures |drivers| == 3 && SeededDrivers(drivers)
      ensures forall d :: d in drivers ==> fresh(d)
    {
      var driver1 := new Driver("D100", "Abdur Rahim", "01735537376", "driver1", Car("ABC123", "Toyota Camry"));
      var driver2 := new Driver("D101", "Abdul Karim", "0175550102", "driver2", Car("XYZ789", "Honda CR-V"));
      var driver3 := new Driver("D102", "Suleman", "0175550103", "driver3", Bike("BIKE001", "TVS"));
      drivers := [driver1, driver2, driver3];
    }

    /** The three default riders, in the order they are added. */
    static method SeedRiders() returns (riders: seq<Rider>)
      ensures |riders| == 3 && SeededRiders(riders)
      ensures forall r :: r in riders ==> fresh(r)
    {
      var rider1 := new Rider("R100", "Tanvir", "01303910166", "rider1", CreditCard("4111111111111111", "12/25"));
      var rider2 := new Rider("R101", "Tuser", "01760049326", "rider2", DigitalWallet("mary@payapp.com"));
      var rider3 := new Rider("R102", "Tousiq", "01712345678", "rider3", HandCash);
      riders := [rider1, rider2, rider3];
    }

    /** adminLogin: the typed id is the admin's and the password authenticates. */
    predicate AdminLogin(id: string, password: string)
      ensures AdminLogin(id, password) <==> FirstMatch([admin.account], id, password) == Some(0)
    {
      admin.account.Matches(id, password)
    }

    /** driverLogin: the first driver, in registration order, whose id and
        password both match; null when there is none. */
    method DriverLogin(id: string, password: string) returns (found: Driver?)
      ensures found == null <==> FirstMatch(DriverAccounts(drivers), id, password).None?
      ensures found != null ==> found == drivers[FirstMatch(DriverAccounts(drivers), id, password).value]
    {
      ghost var accounts := DriverAccounts(drivers);
      var i := 0;
      while i < |drivers|
        invariant 0 <= i <= |drivers|
        invariant FirstMatchFrom(accounts, id, password, i) == FirstMatch(accounts, id, password)
      {
        if drivers[i].account.userId == id && drivers[i].account.Authenticate(password) {
          return drivers[i];
        }
        i := i + 1;
      }
      return null;
    }

    /** passengerLogin: the same lookup over the riders. */
    method PassengerLogin(id: string, password: string) returns (found: Rider?)
      ensures found == null <==> FirstMatch(RiderAccounts(riders), id, password).None?
      ensures found != null ==> found == riders[FirstMatch(RiderAccounts(riders), id, password).value]
    {
      ghost var accounts := RiderAccounts(riders);
      var i := 0;
      while i < |riders|
        invariant 0 <= i <= |riders|
        invariant FirstMatchFrom(accounts, id, password, i) == FirstMatch(accounts, id, password)
      {
        if riders[i].account.userId == id && riders[i].account.Authenticate(password) {
          return riders[i];
        }
        i := i + 1;
      }
      return null;
    }

    /** registerDriver: a new free driver with the vehicle the typed kind
        selects, appended to the drivers and to the users. */
    method RegisterDriver(id: string, name: string, phone: string, password: string,
                          vehicleType: string, license: string, model: string) returns (driver: Driver)
      requires Valid()
      modifies this
      ensures Valid()
      ensures fresh(driver) && driver.account == Account(id, name, phone, password)
      ensures driver.vehicle == VehicleFor(vehicleType, license, model)
      ensures driver.available && driver.completedRides == []
      ensures drivers == old(drivers) + [driver] && riders == old(riders)
      ensures users == old(users) + [DriverUser(driver)]
    {
      var vehicle := VehicleFor(vehicleType, license, model);
      driver := new Driver(id, name, phone, password, vehicle);
      RegisteredAfterDriver(users, admin, drivers, riders, driver);
      drivers := drivers + [driver];
      users := users + [DriverUser(driver)];
    }

    /** registerRider: a new rider with the payment method the menu choice
        selects, appended to the riders and to the users. */
    method RegisterRider(id: string, name: string, phone: string, password: string,
                         paymentChoice: int, cardNumber: string, expiry: string, walletId: string)
      returns (rider: Rider)
      requires Valid()
      modifies this
      ensures Valid()
      ensures fresh(rider) && rider.account == Account(id, name, phone, password)
      ensures rider.paymentMethod == PaymentFor(paymentChoice, cardNumber, expiry, walletId)
      ensures rider.currentRide == null && rider.rideHistory == []
      ensures riders == old(riders) + [rider] && drivers == old(drivers)
      ensures users == old(users) + [RiderUser(rider)]
    {
      var paymentMethod := PaymentFor(paymentChoice, cardNumber, expiry, walletId);
      rider := new Rider(id, name, phone, password, paymentMethod);
      RegisteredAfterRider(users, admin, drivers, riders, rider);
      riders := riders + [rider];
      users := users + [RiderUser(rider)];
    }

    /** The passenger panel's "Request Ride": the first registered driver is
        assigned, asked to accept, and the ride is completed at once. A
        failed payment leaves the new ride as the rider's current ride and
        that driver unavailable. */
    method PassengerRequestRide(rider: Rider, pickup: string, destination: string, distance: real)
      returns (result: RideRequest)
      modifies rider, if drivers == [] then {} else {drivers[0]}
      ensures drivers == [] ==> result == NoDriversAvailable && unchanged(rider)
      ensures drivers != [] ==>
                result.Requested? && fresh(result.ride) && result.ride.rider == rider &&
                result.ride.driver == drivers[0] && result.ride.distance == distance &&
                result.ride.pickupLocation == pickup && result.ride.destination == destination &&
                result.outcome == ProcessPayment(rider.paymentMethod, Fare(distance))
      ensures drivers != [] && result.outcome.Pass? ==>
                result.ride.completed && rider.currentRide == null &&
                rider.rideHistory == old(rider.rideHistory) + [result.ride] &&
                drivers[0].available && drivers[0].completedRides == old(drivers[0].completedRides) + [result.ride]
      ensures drivers != [] && result.outcome.Fail? ==>
                !result.ride.completed && rider.currentRide == result.ride &&
                rider.rideHistory == old(rider.rideHistory) &&
                !drivers[0].available && drivers[0].completedRides == old(drivers[0].completedRides)
    {
      if drivers == [] {
        return NoDriversAvailable;
      }
      var driver := drivers[0];
      rider.RequestRide(driver, pickup, destination, distance);
      var ride := rider.currentRide;
      driver.AcceptRide(ride);
      var outcome := rider.CompleteRide();
      result := Requested(ride, outcome);
    }
  }

  /** Logging in as a seeded driver or rider needs the matching password. */
  lemma SeededLogins()
    ensures FirstMatch(DriverSeeds, "D100", "driver1") == Some(0)
    ensures FirstMatch(DriverSeeds, "D102", "driver3") == Some(2)
    ensures FirstMatch(DriverSeeds, "D100", "driver2") == None
    ensures FirstMatch(RiderSeeds, "R101", "rider2") == Some(1)
    ensures FirstMatch(RiderSeeds, "R100", "rider3") == None
  {
  }

  /** After a driver registers, logging in with any credentials finds the
      same driver as before if one matched; otherwise it finds the new
      driver exactly when the credentials are the new driver's. */
  lemma {:induction false} LoginAfterRegisterDriver(before: seq<Driver>, driver: Driver, id: string, password: string)
    ensures FirstMatch(DriverAccounts(before + [driver]), id, password) ==
              match FirstMatch(DriverAccounts(before), id, password)
              case Some(k) => Some(k)
              case None => if driver.account.Matches(id, password) then Some(|before|) else None
  {
    assert DriverAccounts(before + [driver]) == DriverAccounts(before) + [driver.account];
    FirstMatchAfterAppend(DriverAccounts(before), driver.account, id, password);
  }

  /** The same for a newly registered rider. */
  lemma {:induction false} LoginAfterRegisterRider(before: seq<Rider>, rider: Rider, id: string, password: string)
    ensures FirstMatch(RiderAccounts(before + [rider]), id, password) ==
              match FirstMatch(RiderAccounts(before), id, password)
              case Some(k) => Some(k)
              case None => if rider.account.Matches(id, password) then Some(|before|) else None
  {
    assert RiderAccounts(before + [rider]) == RiderAccounts(before) + [rider.account];
    FirstMatchAfterAppend(RiderAccounts(before), rider.account, id, password);
  }
}
