/**
 * The annual insurance estimate computed once the last answer (previous
 * owners) is in: a base price plus one surcharge or discount per answer,
 * clamped below at a floor.
 */
module Pricing {

  const BasePrice := 750
  /** The calendar year the estimate is computed against; fixed in the code. */
  const CurrentYear := 2025
  const Floor := 550

  /** Driver age: under 25, 25 to 29, 30 and over. */
  function AgeSurcharge(age: int): int
  {
    if age < 25 then 400 else if age < 30 then 200 else 100
  }

  /** Years since the licence was obtained: under 3, 3 to 4, 5 and more. */
  function ExperienceSurcharge(licenseYear: int): int
  {
    var drivingYears := CurrentYear - licenseYear;
    if drivingYears < 3 then 300 else if drivingYears < 5 then 150 else -50
  }

  /** Age of the car: over 15 years, 11 to 15 years, otherwise nothing. */
  function CarAgeSurcharge(carYear: int): int
  {
    var carAge := CurrentYear - carYear;
    if carAge > 15 then 200 else if carAge > 10 then 100 else 0
  }

  /** Engine size in cc: over 2000, 1601 to 2000, otherwise nothing. */
  function EngineSurcharge(engineSize: int): int
  {
    if engineSize > 2000 then 200 else if engineSize > 1600 then 100 else 0
  }

  /** Fuel as stored (already lower-cased): only two spellings change the price. */
  function FuelAdjustment(fuel: string): int
  {
    if fuel == "diesel" then 50 else if fuel == "electric" then -100 else 0
  }

  /** Three or more previous owners. */
  function OwnersSurcharge(owners: int): int
  {
    if owners >= 3 then 100 else 0
  }

  /** The running `base_price` after every rule has been applied. */
  function RawPrice(age: int, licenseYear: int, carYear: int, engineSize: int, fuel: string, owners: int): int
  {
    BasePrice + AgeSurcharge(age) + ExperienceSurcharge(licenseYear) + CarAgeSurcharge(carYear)
      + EngineSurcharge(engineSize) + FuelAdjustment(fuel) + OwnersSurcharge(owners)
  }

  /**
   * `total = max(550, base_price)`. The rules alone keep the price within
   * [700, 2000], so the floor never changes the result.
   */
  function Premium(age: int, licenseYear: int, carYear: int, engineSize: int, fuel: string, owners: int): (total: int)
    ensures total >= Floor
    ensures 700 <= total <= 2000
    ensures total == RawPrice(age, licenseYear, carYear, engineSize, fuel, owners)
  {
    var price := RawPrice(age, licenseYear, carYear, engineSize, fuel, owners);
    if price < Floor then Floor else price
  }

  /** Both ends of [700, 2000] are reached, so the range cannot be narrowed. */
  lemma PremiumRangeTight()
    ensures Premium(30, 2020, 2025, 1600, "electric", 0) == 700
    ensures Premium(24, 2025, 2000, 2001, "diesel", 3) == 2000
  {
  }

  /** A driver of 30 with 6 years of experience, a 5-year-old 1600cc petrol car and one owner pays 800. */
  lemma PremiumExample()
    ensures Premium(30, 2019, 2020, 1600, "petrol", 1) == 800
  {
  }

  /** Age tiers: constant inside each tier, and the exact steps at 25 and 30. */
  lemma AgeTiers(a1: int, a2: int, licenseYear: int, carYear: int, engineSize: int, fuel: string, owners: int)
    ensures (a1 < 25 && a2 < 25) || (25 <= a1 < 30 && 25 <= a2 < 30) || (a1 >= 30 && a2 >= 30) ==>
      Premium(a1, licenseYear, carYear, engineSize, fuel, owners) == Premium(a2, licenseYear, carYear, engineSize, fuel, owners)
    ensures Premium(24, licenseYear, carYear, engineSize, fuel, owners) == Premium(25, licenseYear, carYear, engineSize, fuel, owners) + 200
    ensures Premium(29, licenseYear, carYear, engineSize, fuel, owners) == Premium(30, licenseYear, carYear, engineSize, fuel, owners) + 100
  {
  }

  /** Experience tiers (2025 minus the licence year): below 3, 3 to 4, 5 and more. */
  lemma ExperienceTiers(age: int, y1: int, y2: int, carYear: int, engineSize: int, fuel: string, owners: int)
    ensures ((CurrentYear - y1 < 3 && CurrentYear - y2 < 3) || (3 <= CurrentYear - y1 < 5 && 3 <= CurrentYear - y2 < 5)
             || (CurrentYear - y1 >= 5 && CurrentYear - y2 >= 5)) ==>
      Premium(age, y1, carYear, engineSize, fuel, owners) == Premium(age, y2, carYear, engineSize, fuel, owners)
    ensures Premium(age, 2023, carYear, engineSize, fuel, owners) == Premium(age, 2022, carYear, engineSize, fuel, owners) + 150
    ensures Premium(age, 2021, carYear, engineSize, fuel, owners) == Premium(age, 2020, carYear, engineSize, fuel, owners) + 200
  {
  }

  /** Car-age tiers (2025 minus the car year): over 15, 11 to 15, 10 and less. */
  lemma CarAgeTiers(age: int, licenseYear: int, c1: int, c2: int, engineSize: int, fuel: string, owners: int)
    ensures ((CurrentYear - c1 > 15 && CurrentYear - c2 > 15) || (10 < CurrentYear - c1 <= 15 && 10 < CurrentYear - c2 <= 15)
             || (CurrentYear - c1 <= 10 && CurrentYear - c2 <= 10)) ==>
      Premium(age, licenseYear, c1, engineSize, fuel, owners) == Premium(age, licenseYear, c2, engineSize, fuel, owners)
    ensures Premium(age, licenseYear, 2009, engineSize, fuel, owners) == Premium(age, licenseYear, 2010, engineSize, fuel, owners) + 100
    ensures Premium(age, licenseYear, 2014, engineSize, fuel, owners) == Premium(age, licenseYear, 2015, engineSize, fuel, owners) + 100
  {
  }

  /** Engine tiers: over 2000cc, 1601 to 2000cc, 1600cc and less. */
  lemma EngineTiers(age: int, licenseYear: int, carYear: int, e1: int, e2: int, fuel: string, owners: int)
    ensures (e1 > 2000 && e2 > 2000) || (1600 < e1 <= 2000 && 1600 < e2 <= 2000) || (e1 <= 1600 && e2 <= 1600) ==>
      Premium(age, licenseYear, carYear, e1, fuel, owners) == Premium(age, licenseYear, carYear, e2, fuel, owners)
    ensures Premium(age, licenseYear, carYear, 2001, fuel, owners) == Premium(age, licenseYear, carYear, 2000, fuel, owners) + 100
    ensures Premium(age, licenseYear, carYear, 1601, fuel, owners) == Premium(age, licenseYear, carYear, 1600, fuel, owners) + 100
  {
  }

  /** Owners: three or more add 100, fewer add nothing. */
  lemma OwnersTiers(age: int, licenseYear: int, carYear: int, engineSize: int, fuel: string, o1: int, o2: int)
    ensures (o1 >= 3 && o2 >= 3) || (o1 < 3 && o2 < 3) ==>
      Premium(age, licenseYear, carYear, engineSize, fuel, o1) == Premium(age, licenseYear, carYear, engineSize, fuel, o2)
    ensures Premium(age, licenseYear, carYear, engineSize, fuel, 3) == Premium(age, licenseYear, carYear, engineSize, fuel, 2) + 100
  {
  }

  /**
   * Fuel: measured against "petrol", "diesel" adds 50, "electric" takes off
   * 100 and every other stored string (including "hybrid") changes nothing.
   */
  lemma FuelEffect(age: int, licenseYear: int, carYear: int, engineSize: int, fuel: string, owners: int)
    ensures Premium(age, licenseYear, carYear, engineSize, fuel, owners)
         == Premium(age, licenseYear, carYear, engineSize, "petrol", owners)
            + (if fuel == "diesel" then 50 else if fuel == "electric" then -100 else 0)
    ensures Premium(age, licenseYear, carYear, engineSize, "hybrid", owners)
         == Premium(age, licenseYear, carYear, engineSize, "petrol", owners)
  {
  }

  /** Older drivers never pay more. */
  lemma AgeMonotone(a1: int, a2: int, licenseYear: int, carYear: int, engineSize: int, fuel: string, owners: int)
    requires a1 <= a2
    ensures Premium(a2, licenseYear, carYear, engineSize, fuel, owners) <= Premium(a1, licenseYear, carYear, engineSize, fuel, owners)
  {
  }

  /** A later licence year (less experience) never costs less. */
  lemma LicenseYearMonotone(age: int, y1: int, y2: int, carYear: int, engineSize: int, fuel: string, owners: int)
    requires y1 <= y2
    ensures Premium(age, y1, carYear, engineSize, fuel, owners) <= Premium(age, y2, carYear, engineSize, fuel, owners)
  {
  }

  /** A newer car never costs more. */
  lemma CarYearMonotone(age: int, licenseYear: int, c1: int, c2: int, engineSize: int, fuel: string, owners: int)
    requires c1 <= c2
    ensures Premium(age, licenseYear, c2, engineSize, fuel, owners) <= Premium(age, licenseYear, c1, engineSize, fuel, owners)
  {
  }

  /** A larger engine never costs less. */
  lemma EngineSizeMonotone(age: int, licenseYear: int, carYear: int, e1: int, e2: int, fuel: string, owners: int)
    requires e1 <= e2
    ensures Premium(age, licenseYear, carYear, e1, fuel, owners) <= Premium(age, licenseYear, carYear, e2, fuel, owners)
  {
  }

  /** More previous owners never cost less. */
  lemma OwnersMonotone(age: int, licenseYear: int, carYear: int, engineSize: int, fuel: string, o1: int, o2: int)
    requires o1 <= o2
    ensures Premium(age, licenseYear, carYear, engineSize, fuel, o1) <= Premium(age, licenseYear, carYear, engineSize, fuel, o2)
  {
  }
}
