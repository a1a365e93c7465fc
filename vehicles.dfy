/** The vehicle kinds a driver can own and how registration picks one. */
module Vehicles {

  /** Car and Bike. Their startRide, stopRide and getVehicleInfo only print. */
  datatype Vehicle =
    | Car(licensePlate: string, model: string)
    | Bike(registrationNumber: string, bikeType: string)

  /** Lower-casing of the ASCII letters; other characters are unchanged. */
  function LowerAscii(c: char): char
  {
    if 'A' <= c <= 'Z' then (c as int + 32) as char else c
  }

  /** String.equalsIgnoreCase restricted to ASCII case folding. */
  predicate EqualsIgnoreCase(s: string, t: string)
  {
    |s| == |t| && forall i :: 0 <= i < |s| ==> LowerAscii(s[i]) == LowerAscii(t[i])
  }

  /** registerDriver's choice: a car when the typed kind is "car" in any
      letter case, a bike for every other string. The licence and model go
      to the chosen kind's two fields in order. */
  function VehicleFor(vehicleType: string, license: string, model: string): (v: Vehicle)
    ensures v.Car? <==> EqualsIgnoreCase(vehicleType, "car")
    ensures v == Car(license, model) || v == Bike(license, model)
  {
    if EqualsIgnoreCase(vehicleType, "car") then Car(license, model) else Bike(license, model)
  }

  /** The characters that fold to a given lower-case ASCII letter are that
      letter and its upper-case form. */
  lemma LowerAsciiInverse(c: char, lower: char)
    requires 'a' <= lower <= 'z'
    ensures LowerAscii(c) == lower <==> c == lower || c == (lower as int - 32) as char
  {
  }

  /** Exactly the eight capitalisations of "car" register a car. */
  lemma CarSpellings(vehicleType: string, license: string, model: string)
    ensures VehicleFor(vehicleType, license, model) == Car(license, model) <==>
      vehicleType in {"car", "caR", "cAr", "cAR", "Car", "CaR", "CAr", "CAR"}
  {
    if EqualsIgnoreCase(vehicleType, "car") {
      LowerAsciiInverse(vehicleType[0], 'c');
      LowerAsciiInverse(vehicleType[1], 'a');
      LowerAsciiInverse(vehicleType[2], 'r');
      assert vehicleType == [vehicleType[0], vehicleType[1], vehicleType[2]];
    }
  }
}
