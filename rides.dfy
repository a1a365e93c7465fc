/** The ride lifecycle: a rider requests a ride, a driver accepts it, and
    completing it charges the fare, releases the driver and files the ride in
    both histories. Ride, Rider and Driver refer to one another, so they live
    in one module. */
module Rides {
  import opened Accounts
  import opened Payments
  import opened Vehicles

  const BaseFare: real := 20.50
  const PerMileRate: real := 3.0

  /** The fare of a ride of the given distance in miles. */
  function Fare(distance: real): (fare: real)
    ensures distance >= 0.0 ==> fare >= BaseFare
  {
    BaseFare + distance * PerMileRate
  }

  /** A longer ride always costs strictly more. */
  lemma FareStrictlyIncreasing(shorter: real, longer: real)
    requires shorter < longer
    ensures Fare(shorter) < Fare(longer)
  {
  }

  /** The fare is positive exactly for distances above -41/6 miles. */
  lemma FarePositiveIff(distance: real)
    ensures Fare(distance) > 0.0 <==> distance > -41.0 / 6.0
  {
  }

  /** Payment of the fare of a ride of non-negative length is never rejected
      for its amount: it goes through unless the rider's card number is too
      short for the receipt. */
  lemma RideFareNeverInvalid(m: PaymentMethod, distance: real)
    requires distance >= 0.0
    ensures ProcessPayment(m, Fare(distance)).Pass? <==> !(m.CreditCard? && Utf16Length(m.cardNumber) < 4)
    ensures ProcessPayment(m, Fare(distance)) != Fail(InvalidAmount(Fare(distance)))
  {
  }

  /** A negative distance typed at the prompt gives a negative fare, which
      every payment method rejects. */
  lemma NegativeDistanceRejected(m: PaymentMethod)
    ensures Fare(-10.0) == -9.5
    ensures ProcessPayment(m, Fare(-10.0)) == Fail(InvalidAmount(-9.5))
  {
  }

  class Ride {
    const rider: Rider
    var driver: Driver
    const pickupLocation: string
    const destination: string
    const distance: real
    var completed: bool

    constructor (rider: Rider, driver: Driver, pickup: string, destination: string, distance: real)
      ensures this.rider == rider && this.driver == driver
      ensures pickupLocation == pickup && this.destination == destination && this.distance == distance
      ensures !completed
    {
      this.rider := rider;
      this.driver := driver;
      pickupLocation := pickup;
      this.destination := destination;
      this.distance := distance;
      completed := false;
    }

    /** calculateFare: the fare of this ride's distance, at least the base
        fare when the distance is not negative. */
    function CalculateFare(): (fare: real)
      ensures fare == Fare(distance)
      ensures distance >= 0.0 ==> fare >= BaseFare
    {
      Fare(distance)
    }

    method SetDriver(driver: Driver)
      modifies this
      ensures this.driver == driver && completed == old(completed)
    {
      this.driver := driver;
    }

    /** Computes the fare, takes the payment, then hands the ride to the
        driver's completeRide and marks it completed. A failed payment ends
        the call before anything has changed. */
    method Complete(paymentMethod: PaymentMethod) returns (outcome: Outcome)
      modifies this, driver
      ensures outcome == ProcessPayment(paymentMethod, Fare(distance))
      ensures driver == old(driver)
      ensures outcome.Pass? ==> completed && driver.available
      ensures outcome.Pass? ==> driver.completedRides == old(driver.completedRides) + [this]
      ensures outcome.Fail? ==> unchanged(this, driver)
    {
      var fare := CalculateFare();
      outcome := ProcessPayment(paymentMethod, fare);
      if outcome.Fail? {
        return;
      }
      driver.CompleteRide(this);
      completed := true;
    }
  }

  class Rider {
    const account: Account
    const paymentMethod: PaymentMethod
    var currentRide: Ride?
    var rideHistory: seq<Ride>

    constructor (userId: string, name: string, phone: string, password: string, paymentMethod: PaymentMethod)
      ensures account == Account(userId, name, phone, password) && this.paymentMethod == paymentMethod
      ensures currentRide == null && rideHistory == []
    {
      account := Account(userId, name, phone, password);
      this.paymentMethod := paymentMethod;
      currentRide := null;
      rideHistory := [];
    }

    /** Replaces the current ride with a new, not yet completed ride with
        the given driver; the history is untouched. */
    method RequestRide(driver: Driver, pickup: string, destination: string, distance: real)
      modifies this
      ensures currentRide != null && fresh(currentRide)
      ensures currentRide.rider == this && currentRide.driver == driver && !currentRide.completed
      ensures currentRide.pickupLocation == pickup && currentRide.destination == destination
      ensures currentRide.distance == distance
      ensures rideHistory == old(rideHistory)
    {
      currentRide := new Ride(this, driver, pickup, destination, distance);
    }

    /** With a current ride: complete it with this rider's payment method,
        then append it to the history and clear the slot. When the payment
        fails the exception leaves rider, ride and driver exactly as they
        were. Without a current ride nothing happens. */
    method CompleteRide() returns (outcome: Outcome)
      modifies this, if currentRide == null then {} else {currentRide, currentRide.driver}
      ensures old(currentRide) == null ==> outcome == Pass && unchanged(this)
      ensures old(currentRide) != null ==>
                outcome == ProcessPayment(paymentMethod, Fare(old(currentRide).distance))
      ensures old(currentRide) != null && outcome.Pass? ==>
                currentRide == null && rideHistory == old(rideHistory) + [old(currentRide)] &&
                old(currentRide).completed && old(currentRide).driver == old(currentRide.driver)
      ensures old(currentRide) != null && outcome.Pass? ==>
                old(currentRide.driver).available &&
                old(currentRide.driver).completedRides == old(currentRide.driver.completedRides) + [old(currentRide)]
      ensures old(currentRide) != null && outcome.Fail? ==>
                unchanged(this) && unchanged(old(currentRide)) && unchanged(old(currentRide.driver))
    {
      outcome := Pass;
      if currentRide != null {
        outcome := currentRide.Complete(paymentMethod);
        if outcome.Fail? {
          return;
        }
        rideHistory := rideHistory + [currentRide];
        currentRide := null;
      }
    }
  }

  class Driver {
    const account: Account
    const vehicle: Vehicle
    var available: bool
    var completedRides: seq<Ride>

    constructor (userId: string, name: string, phone: string, password: string, vehicle: Vehicle)
      ensures account == Account(userId, name, phone, password) && this.vehicle == vehicle
      ensures available && completedRides == []
    {
      account := Account(userId, name, phone, password);
      this.vehicle := vehicle;
      available := true;
      completedRides := [];
    }

    /** An available driver takes the ride and becomes unavailable; a busy
        driver ignores it. */
    method AcceptRide(ride: Ride)
      modifies this, ride
      ensures old(available) ==> !available && ride.driver == this
      ensures old(available) ==> completedRides == old(completedRides) && ride.completed == old(ride.completed)
      ensures !old(available) ==> unchanged(this, ride)
    {
      if available {
        ride.SetDriver(this);
        available := false;
      }
    }

    /** Files the ride as completed and frees the driver. */
    method CompleteRide(ride: Ride)
      modifies this
      ensures available && completedRides == old(completedRides) + [ride]
    {
      completedRides := completedRides + [ride];
      available := true;
    }

    method IsAvailable() returns (b: bool)
      ensures b == available
    {
      b := available;
    }
  }
}
