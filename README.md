# Ride-sharing system: a Dafny model of the ride lifecycle

This project models the core of a small console ride-sharing program written in Java
(`Ride_Sharing_System_in_OOP.java`). A rider requests a ride. The first registered driver
accepts it if they are available. Completing the ride computes the fare, takes the payment
with the rider's payment method, frees the driver and files the ride in both the driver's
and the rider's histories. Around this lifecycle sit the registry of users, drivers and
riders, the seeded start-up data, registration, and the login lookups.

Layout, one module per component:

- `accounts.dfy`, module `Accounts`: the identity fields every user shares, `authenticate`,
  and the "first matching user in list order" lookup that both login screens perform.
- `payments.dfy`, module `Payments`: the three payment methods and `processPayment`. A thrown
  exception is modelled as the outcome `Fail`; a normal return is `Pass`.
- `vehicles.dfy`, module `Vehicles`: cars and bikes, and how registration picks a kind from
  the typed string.
- `rides.dfy`, module `Rides`: the fare formula and the classes `Ride`, `Rider` and `Driver`.
  Their methods change fields in place (`available`, `completed`, `driver`, `currentRide`)
  and append to the lists (`completedRides`, `rideHistory`), as the Java does.
- `registry.dfy`, module `Registry`: the `RideSharingSystem` object. It holds the `users`,
  `drivers` and `riders` lists and the admin, which the Java keeps as static fields. It also
  holds the start-up seeding, registration, the logins and the passenger's ride request.

Points the proofs bring out:

- A failed payment throws before `Ride.complete` changes anything. So the ride stays not
  completed, the driver keeps its availability and its list, and `Rider.completeRide` leaves
  the current ride and the history alone.
- In the passenger's ride request, a failed payment leaves the first driver unavailable. It
  stays so until a later ride with that driver completes. `acceptRide` on a busy driver does
  nothing, but the ride already names that driver from its constructor, so the next request
  still completes with them.
- The fare is at least 20.50 for any non-negative distance, so its payment is never rejected
  for its amount. A distance typed below -41/6 miles gives a non-positive fare, and every
  payment method rejects that.
- A credit card whose number is shorter than four UTF-16 code units (Java's `length()`)
  passes the amount check. It then fails when the receipt cuts out the last four digits.
  This is an unchecked exception: it unwinds `Ride.complete` and `Rider.completeRide` in the
  same way, with no state changed, but the passenger menu does not catch it.

## Model

| member | source | states |
|---|---|---|
| `Accounts.Account.Authenticate` | Ride_Sharing_System_in_OOP.java:47-49 | authentication succeeds exactly when the given password equals the stored one |
| `Accounts.FirstMatchFrom` | Ride_Sharing_System_in_OOP.java:452-458 | the result is the index of the first account, in list order, whose id and password both match; None exactly when no account matches |
| `Accounts.FirstMatch` | Ride_Sharing_System_in_OOP.java:499-505 | the whole-list lookup: the index of the first account in list order whose id and password match, with no earlier match; None exactly when no account matches |
| `Accounts.FirstMatchAfterAppend` | Ride_Sharing_System_in_OOP.java:606-607 | appending an account never changes which earlier account a credential pair finds; the new account is found only when no earlier one matches |
| `Payments.ProcessPayment` | Ride_Sharing_System_in_OOP.java:244-251 | a payment is rejected as invalid exactly when the amount is at most 0, carrying that amount; a card number shorter than 4 UTF-16 code units fails only for a positive amount; otherwise the payment passes |
| `Payments.Utf16Length` | Ride_Sharing_System_in_OOP.java:250 | the length Java's `length()` reports: at least the number of characters and at most twice it |
| `Payments.SupplementaryCharacterCardPasses` | Ride_Sharing_System_in_OOP.java:249-250 | a three-character card number holding one character above U+FFFF is four UTF-16 units long, so its payment passes |
| `Payments.AmountCheckIndependentOfMethod` | Ride_Sharing_System_in_OOP.java:262-265 | card, wallet and cash reject exactly the same amounts as invalid |
| `Payments.PaymentFor` | Ride_Sharing_System_in_OOP.java:629-645 | choice 1 gives a card with the typed number and expiry, 2 a wallet with the typed id, and any other choice hand cash |
| `Vehicles.VehicleFor` | Ride_Sharing_System_in_OOP.java:598-603 | the vehicle is a car exactly when the typed kind equals "car" ignoring case, otherwise a bike; licence and model go to its two fields |
| `Vehicles.CarSpellings` | Ride_Sharing_System_in_OOP.java:599 | exactly the eight capitalisations of "car" register a car |
| `Rides.Fare` | Ride_Sharing_System_in_OOP.java:157-159 | the fare of a non-negative distance is at least the base fare 20.50 |
| `Rides.FareStrictlyIncreasing` | Ride_Sharing_System_in_OOP.java:138-139 | a longer ride has a strictly larger fare |
| `Rides.FarePositiveIff` | Ride_Sharing_System_in_OOP.java:158 | the fare is positive exactly when the distance exceeds -41/6 miles |
| `Rides.RideFareNeverInvalid` | Ride_Sharing_System_in_OOP.java:161-163 | for a non-negative distance the fare's payment is never rejected for its amount; it passes unless the card number is shorter than 4 UTF-16 units |
| `Rides.NegativeDistanceRejected` | Ride_Sharing_System_in_OOP.java:530 | a typed distance of -10 miles gives fare -9.5, which every payment method rejects |
| `Rides.Ride.constructor` | Ride_Sharing_System_in_OOP.java:148-155 | a new ride records rider, driver, places and distance, and is not completed |
| `Rides.Ride.CalculateFare` | Ride_Sharing_System_in_OOP.java:157-159 | the ride's fare is the fare of its distance, at least the base fare for a non-negative distance |
| `Rides.Ride.SetDriver` | Ride_Sharing_System_in_OOP.java:177-179 | the ride's driver becomes the given one; nothing else changes |
| `Rides.Ride.Complete` | Ride_Sharing_System_in_OOP.java:161-171 | the outcome is the payment of the ride's fare; on success the ride is completed, its driver is free and has this ride appended; on failure ride and driver are unchanged |
| `Rides.Rider.constructor` | Ride_Sharing_System_in_OOP.java:58-62 | a new rider has the given identity and payment method, no current ride and an empty history |
| `Rides.Rider.RequestRide` | Ride_Sharing_System_in_OOP.java:73-76 | the current ride becomes a new, not completed ride of this rider with the given driver, places and distance; history unchanged |
| `Rides.Rider.CompleteRide` | Ride_Sharing_System_in_OOP.java:78-84 | without a current ride nothing changes; with one, a successful payment completes it, appends it to the history and clears the slot, and a failed payment changes neither rider, ride nor driver |
| `Rides.Driver.constructor` | Ride_Sharing_System_in_OOP.java:97-102 | a new driver is available with no completed rides |
| `Rides.Driver.AcceptRide` | Ride_Sharing_System_in_OOP.java:115-122 | an available driver becomes unavailable and becomes the ride's driver; an unavailable driver changes nothing |
| `Rides.Driver.CompleteRide` | Ride_Sharing_System_in_OOP.java:124-129 | the given ride is appended to the completed rides, earlier entries kept, and the driver is available |
| `Rides.Driver.IsAvailable` | Ride_Sharing_System_in_OOP.java:131-133 | reports the driver's availability flag |
| `Registry.Admin.constructor` | Ride_Sharing_System_in_OOP.java:287-290 | the admin has the given identity |
| `Registry.SeedRegistered` | Ride_Sharing_System_in_OOP.java:324-357 | as multisets, the seeded users list is the admin plus the three drivers plus the three riders, each once |
| `Registry.RegisteredAfterDriver` | Ride_Sharing_System_in_OOP.java:606-607 | appending a driver to both the drivers and the users list keeps users equal, as a multiset, to admin plus drivers plus riders |
| `Registry.RegisteredAfterRider` | Ride_Sharing_System_in_OOP.java:648-649 | appending a rider to both the riders and the users list keeps the same multiset equation |
| `Registry.RideSharingSystem.constructor` | Ride_Sharing_System_in_OOP.java:322-358 | start-up creates admin A100, drivers D100-D102 and riders R100-R102 with their vehicles and payment methods, lists users in that order, and satisfies the registry invariant |
| `Registry.RideSharingSystem.SeedDrivers` | Ride_Sharing_System_in_OOP.java:328-338 | the three default drivers have the seeded accounts and vehicles, are available and have no completed rides |
| `Registry.RideSharingSystem.SeedRiders` | Ride_Sharing_System_in_OOP.java:344-354 | the three default riders have the seeded accounts and payment methods, no current ride and no history |
| `Registry.RideSharingSystem.AdminLogin` | Ride_Sharing_System_in_OOP.java:401 | admin login succeeds exactly when the lookup over the admin's account alone finds it |
| `Registry.RideSharingSystem.DriverLogin` | Ride_Sharing_System_in_OOP.java:446-459 | returns the first driver in list order whose id and password match, and null exactly when none does |
| `Registry.RideSharingSystem.PassengerLogin` | Ride_Sharing_System_in_OOP.java:493-506 | returns the first rider in list order whose id and password match, and null exactly when none does |
| `Registry.SeededLogins` | Ride_Sharing_System_in_OOP.java:332-350 | on the seeded lists, D100/driver1, D102/driver3 and R101/rider2 log in, D100/driver2 and R100/rider3 do not |
| `Registry.RideSharingSystem.RegisterDriver` | Ride_Sharing_System_in_OOP.java:581-609 | a new available driver with the chosen vehicle is appended to drivers and users; riders unchanged; the registry invariant is kept |
| `Registry.RideSharingSystem.RegisterRider` | Ride_Sharing_System_in_OOP.java:611-651 | a new rider with the chosen payment method is appended to riders and users; drivers unchanged; the registry invariant is kept |
| `Registry.LoginAfterRegisterDriver` | Ride_Sharing_System_in_OOP.java:605-607 | after a driver registers, existing credentials still log in as before, and the new driver is found only when no earlier driver matches |
| `Registry.LoginAfterRegisterRider` | Ride_Sharing_System_in_OOP.java:647-649 | the same for a newly registered rider |
| `Registry.RideSharingSystem.PassengerRequestRide` | Ride_Sharing_System_in_OOP.java:524-547 | with no drivers nothing happens; otherwise a new ride of this rider with the first driver, the typed places and distance is paid for; on success it is completed and in both histories with the driver free; on failure it stays current, uncompleted, and the first driver is left unavailable |

## Left out

- Console I/O: the menus, prompts, `Scanner` parsing, `System.out` messages, `displayProfile`,
  `viewAllUsers`, `contactSupport`, `System.exit` and the driver panel's hard-coded list of
  rides. Values the user types are parameters of the modelled methods.
- `Car`/`Bike` `startRide`, `stopRide` and `getVehicleInfo` only print. They have no
  counterpart here, and a vehicle is a plain value.
- The admin's `allUsers` list is the same list object as the system's `users` and is only
  displayed, so the admin does not repeat it.
- The credit-card receipt's last-four substring is not modelled as a string. Only its failure
  on a number shorter than 4 UTF-16 code units is modelled, as `CardNumberTooShort`; the
  length is counted as Java counts it (`Payments.Utf16Length`). That exception is unchecked
  and not caught by the passenger menu, so it ends the Java program. `PassengerRequestRide`
  returns it instead.
- Fares are exact `real`s: the IEEE-754 rounding of Java `double` arithmetic, NaN and
  infinite distances are not modelled.
- `Vehicles.VehicleFor`: case-insensitive comparison folds ASCII letters only. For the word
  "car" this agrees with Java's Unicode `equalsIgnoreCase`, since no other character folds
  to `c`, `a` or `r`.
- Null references: method parameters are non-null objects. The Java callers never pass
  null; a null there would end the Java program with a NullPointerException.
- Fare negotiation, ride status values, earnings and commission, complaints, a surge
  multiplier, persistence and id-counter recovery do not exist in this program's code. They
  are not modelled.
