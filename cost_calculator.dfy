/**
  The cost calculator: the table of the two configured hotels, the lookups
  that refuse any other hotel key, the fixed per-person costs (meals, coffee
  breaks, meeting room) and the totals of one group's stay.

  Per-person figures are exact rational quotients; the source computes them
  in floating point.
 */
module CostCalculator {
  import opened HotelModel
  import opened Allocator

  datatype CostError =
    | UnknownHotel(key: string)
    | AllocatorError(cause: AllocError)
    | DivisionByZero            // a per-person figure for a group of zero people

  const EL_HIERRO: HotelConfig := HotelConfig(
    "Parador de El Hierro",
    RoomInventory(20, 20),
    HotelRates(RoomRate(158, 136), RoomRate(181, 159)),
    7, 200)

  const LA_PALMA: HotelConfig := HotelConfig(
    "Parador de La Palma",
    RoomInventory(21, 24),
    HotelRates(RoomRate(164, 144), RoomRate(186, 166)),
    8, 800)

  /** The hotels the calculator knows, by key. */
  function InitializeHotels(): (hotels: map<string, HotelConfig>)
    ensures hotels.Keys == {"el_hierro", "la_palma"}
    ensures forall key :: key in hotels ==> hotels[key].MaxCapacity() >= 80
  {
    map["el_hierro" := EL_HIERRO, "la_palma" := LA_PALMA]
  }

  /** The guard every lookup performs: only the two configured keys are known. */
  function LookupHotel(key: string): (r: Result<HotelConfig, CostError>)
    ensures r.Ok? <==> key == "el_hierro" || key == "la_palma"
    ensures r.Err? ==> r.error == UnknownHotel(key)
    ensures key == "el_hierro" ==> r == Ok(EL_HIERRO)
    ensures key == "la_palma" ==> r == Ok(LA_PALMA)
  {
    var hotels := InitializeHotels();
    if key !in hotels then Err(UnknownHotel(key)) else Ok(hotels[key])
  }

  // ---------------------------------------------------------------------------
  // Fixed costs per person.

  /** Meals per person for a stay of `nights`: dinner, three a day in between, breakfast. */
  function MealsPerPerson(nights: int): int {
    1 + (3 * (nights - 2)) + 1
  }

  function CalculateMealCost(): int {
    MealsPerPerson(NIGHTS) * MEAL_COST_PER_PERSON
  }

  /** Two coffee breaks on every middle day. */
  function CoffeeBreaksPerPerson(nights: int): int {
    2 * (nights - 2)
  }

  function CalculateCoffeeBreakCost(key: string): (r: Result<int, CostError>)
    ensures r.Err? <==> LookupHotel(key).Err?
    ensures r.Ok? ==> r.value == CoffeeBreaksPerPerson(NIGHTS) * LookupHotel(key).value.coffeeBreakCost
  {
    match LookupHotel(key)
    case Err(e) => Err(e)
    case Ok(config) => Ok(CoffeeBreaksPerPerson(NIGHTS) * config.coffeeBreakCost)
  }

  /** An amount shared evenly by a group; the source divides in floating point. */
  function PerPerson(total: int, numPeople: int): (share: real)
    requires numPeople != 0
    ensures share * numPeople as real == total as real
  {
    total as real / numPeople as real
  }

  /** The meeting-room rental shared evenly by the group. */
  function CalculateMeetingRoomCost(numPeople: int, key: string): Result<real, CostError> {
    match LookupHotel(key)
    case Err(e) => Err(e)
    case Ok(config) =>
      if numPeople == 0 then Err(DivisionByZero)
      else Ok(PerPerson(config.meetingRoomCost, numPeople))
  }

  /** The accommodation bill of the allocated rooms, shared evenly by the group. */
  function CalculateAccommodationCost(numPeople: int, key: string): Result<real, CostError> {
    match LookupHotel(key)
    case Err(e) => Err(e)
    case Ok(config) =>
      match Allocate(config, numPeople)
      case Err(e) => Err(AllocatorError(e))
      case Ok(rooms) =>
        if numPeople == 0 then Err(DivisionByZero)
        else Ok(PerPerson(rooms.TotalCost(config.rates), numPeople))
  }

  /** Accommodation, meals, coffee breaks and meeting room, per person; the first failure wins. */
  function CalculateTotalPricePerPerson(numPeople: int, key: string): Result<real, CostError> {
    match CalculateAccommodationCost(numPeople, key)
    case Err(e) => Err(e)
    case Ok(accommodation) =>
      match CalculateCoffeeBreakCost(key)
      case Err(e) => Err(e)
      case Ok(coffee) =>
        match CalculateMeetingRoomCost(numPeople, key)
        case Err(e) => Err(e)
        case Ok(meeting) => Ok(accommodation + CalculateMealCost() as real + coffee as real + meeting)
  }

  /** The allocation and the four cost totals of one group's stay. */
  datatype Detail = Detail(
    rooms: Allocation,
    accommodation: int,
    meals: int,
    coffee: int,
    meeting: real)

  function GetDetailedAllocation(numPeople: int, key: string): Result<Detail, CostError> {
    match LookupHotel(key)
    case Err(e) => Err(e)
    case Ok(config) =>
      match Allocate(config, numPeople)
      case Err(e) => Err(AllocatorError(e))
      case Ok(rooms) =>
        match CalculateCoffeeBreakCost(key)
        case Err(e) => Err(e)
        case Ok(coffee) =>
          match CalculateMeetingRoomCost(numPeople, key)
          case Err(e) => Err(e)
          case Ok(meeting) =>
            Ok(Detail(rooms, rooms.TotalCost(config.rates), CalculateMealCost() * numPeople,
                      coffee * numPeople, meeting * numPeople as real))
  }

  // ---------------------------------------------------------------------------
  // The day-by-day schedule the meal and coffee formulas count.

  /** Meals one person has on day `day` (from 0) of a `days`-day stay. */
  function MealsOnDay(day: int, days: int): int {
    if day == 0 then 1              // arrival: dinner
    else if day == days - 1 then 1  // departure: breakfast
    else MEALS_PER_DAY
  }

  /** Coffee breaks on day `day`: none on arrival or departure, two on every other day. */
  function CoffeeBreaksOnDay(day: int, days: int): int {
    if day == 0 || day == days - 1 then 0 else 2
  }

  /** Meals over the first `k` days. */
  function ScheduledMeals(days: int, k: nat): int {
    if k == 0 then 0 else ScheduledMeals(days, k - 1) + MealsOnDay(k - 1, days)
  }

  /** Coffee breaks over the first `k` days. */
  function ScheduledCoffeeBreaks(days: int, k: nat): int {
    if k == 0 then 0 else ScheduledCoffeeBreaks(days, k - 1) + CoffeeBreaksOnDay(k - 1, days)
  }

  lemma {:induction false} ScheduleBeforeDeparture(days: int, k: nat)
    requires 1 <= k <= days - 1
    ensures ScheduledMeals(days, k) == 1 + 3 * (k - 1)
    ensures ScheduledCoffeeBreaks(days, k) == 2 * (k - 1)
  {
    if k > 1 {
      ScheduleBeforeDeparture(days, k - 1);
    }
  }

  /**
    The closed formulas count the schedule: for every stay of two days or
    more, the meals and the coffee breaks per person are those of its days.
   */
  lemma FormulasMatchSchedule(days: nat)
    requires days >= 2
    ensures MealsPerPerson(days) == ScheduledMeals(days, days)
    ensures CoffeeBreaksPerPerson(days) == ScheduledCoffeeBreaks(days, days)
  {
    ScheduleBeforeDeparture(days, days - 1);
  }

  /** At five nights: 11 meals for 418 euros, and 6 coffee breaks, 42 euros at El Hierro. */
  lemma FixedCostsAtFiveNights()
    ensures MealsPerPerson(NIGHTS) == ScheduledMeals(NIGHTS, NIGHTS) == 11
    ensures CalculateMealCost() == 418
    ensures CoffeeBreaksPerPerson(NIGHTS) == ScheduledCoffeeBreaks(NIGHTS, NIGHTS) == 6
    ensures CalculateCoffeeBreakCost("el_hierro") == Ok(42)
    ensures CalculateCoffeeBreakCost("la_palma") == Ok(48)
  {
    FormulasMatchSchedule(NIGHTS);
  }

  // ---------------------------------------------------------------------------
  // Errors and totals.

  /** Every lookup refuses a key other than the two configured ones, naming the key. */
  lemma UnknownHotelRefused(numPeople: int, key: string)
    requires key != "el_hierro" && key != "la_palma"
    ensures CalculateAccommodationCost(numPeople, key) == Err(UnknownHotel(key))
    ensures CalculateCoffeeBreakCost(key) == Err(UnknownHotel(key))
    ensures CalculateMeetingRoomCost(numPeople, key) == Err(UnknownHotel(key))
    ensures CalculateTotalPricePerPerson(numPeople, key) == Err(UnknownHotel(key))
    ensures GetDetailedAllocation(numPeople, key) == Err(UnknownHotel(key))
  {
  }

  /**
    For a configured hotel the calculation fails exactly when the group
    exceeds the capacity (with the capacity error) or is empty (a division
    by zero); an empty group gets through the allocator first.
   */
  lemma KnownHotelErrors(numPeople: int, key: string)
    requires LookupHotel(key).Ok?
    ensures var cap := LookupHotel(key).value.MaxCapacity();
            && (numPeople > cap ==>
                  GetDetailedAllocation(numPeople, key) == Err(AllocatorError(CapacityExceeded(numPeople, cap))) &&
                  CalculateTotalPricePerPerson(numPeople, key) == Err(AllocatorError(CapacityExceeded(numPeople, cap))))
            && (numPeople == 0 ==>
                  GetDetailedAllocation(numPeople, key) == Err(DivisionByZero) &&
                  CalculateTotalPricePerPerson(numPeople, key) == Err(DivisionByZero))
            && (GetDetailedAllocation(numPeople, key).Ok? <==> numPeople != 0 && numPeople <= cap)
            && (CalculateTotalPricePerPerson(numPeople, key).Ok? <==> numPeople != 0 && numPeople <= cap)
  {
    AllocateErrors(LookupHotel(key).value, numPeople);
  }

  /**
    The detailed totals and the per-person prices describe the same stay:
    the meeting room is paid once, and each per-person figure is its total
    shared by the group.
   */
  lemma DetailAgreesWithPerPerson(numPeople: int, key: string)
    requires GetDetailedAllocation(numPeople, key).Ok?
    ensures numPeople != 0
    ensures var d := GetDetailedAllocation(numPeople, key).value;
            var config := LookupHotel(key).value;
            && d.meals == 418 * numPeople
            && d.meeting == config.meetingRoomCost as real
            && CalculateAccommodationCost(numPeople, key) == Ok(PerPerson(d.accommodation, numPeople))
            && CalculateTotalPricePerPerson(numPeople, key)
               == Ok(PerPerson(d.accommodation + d.meals + d.coffee + config.meetingRoomCost, numPeople))
  {
    DetailParts(numPeople, key);
    assert CalculateMealCost() == 418;
    var d := GetDetailedAllocation(numPeople, key).value;
    var config := LookupHotel(key).value;
    var coffee := CalculateCoffeeBreakCost(key).value;
    var acc := CalculateAccommodationCost(numPeople, key).value;
    var meeting := CalculateMeetingRoomCost(numPeople, key).value;
    var grand := d.accommodation + d.meals + d.coffee + config.meetingRoomCost;
    SharesAddUp(numPeople, d.accommodation, 418, coffee, config.meetingRoomCost);
    assert grand == d.accommodation + 418 * numPeople + coffee * numPeople + config.meetingRoomCost;
    assert CalculateTotalPricePerPerson(numPeople, key) == Ok(acc + 418 as real + coffee as real + meeting);
  }

  /** The rooms of a detailed allocation are the allocator's, and cost the bill of their bookings. */
  lemma DetailRooms(numPeople: int, key: string)
    requires GetDetailedAllocation(numPeople, key).Ok?
    ensures var d := GetDetailedAllocation(numPeople, key).value;
            var config := LookupHotel(key).value;
            && Allocate(config, numPeople) == Ok(d.rooms)
            && d.rooms.NonNegative()
            && d.accommodation == StayBill(Bookings(d.rooms), config.rates)
  {
    var config := LookupHotel(key).value;
    var d := GetDetailedAllocation(numPeople, key).value;
    DetailParts(numPeople, key);
    if numPeople < 0 {
      AllocateNonPositive(config, numPeople);
    } else {
      AllocateSucceeds(config, numPeople);
    }
    AllocationMeansBookings(d.rooms, config.rates);
  }

  /** Shares of several totals add up to the share of their sum. */
  lemma SharesAddUp(numPeople: int, accommodation: int, meals: int, coffee: int, meeting: int)
    requires numPeople != 0
    ensures PerPerson(accommodation, numPeople) + meals as real + coffee as real + PerPerson(meeting, numPeople)
            == PerPerson(accommodation + meals * numPeople + coffee * numPeople + meeting, numPeople)
  {
    var n := numPeople as real;
    assert (meals * numPeople) as real == meals as real * n;
    assert (coffee * numPeople) as real == coffee as real * n;
  }

  /** The pieces a successful detailed allocation is made of, read off the definitions. */
  lemma DetailParts(numPeople: int, key: string)
    requires GetDetailedAllocation(numPeople, key).Ok?
    ensures LookupHotel(key).Ok? && CalculateCoffeeBreakCost(key).Ok?
    ensures CalculateMeetingRoomCost(numPeople, key).Ok? && CalculateAccommodationCost(numPeople, key).Ok?
    ensures var d := GetDetailedAllocation(numPeople, key).value;
            var config := LookupHotel(key).value;
            var acc := CalculateAccommodationCost(numPeople, key).value;
            var coffee := CalculateCoffeeBreakCost(key).value;
            var meeting := CalculateMeetingRoomCost(numPeople, key).value;
            && numPeople != 0 && numPeople <= config.MaxCapacity()
            && Allocate(config, numPeople) == Ok(d.rooms)
            && d.accommodation == d.rooms.TotalCost(config.rates)
            && d.meals == CalculateMealCost() * numPeople
            && d.coffee == coffee * numPeople
            && d.meeting == meeting * numPeople as real
            && d.meeting == config.meetingRoomCost as real
            && acc == PerPerson(d.accommodation, numPeople)
            && meeting == PerPerson(config.meetingRoomCost, numPeople)
            && CalculateTotalPricePerPerson(numPeople, key)
               == Ok(acc + CalculateMealCost() as real + coffee as real + meeting)
  {
  }

  // ---------------------------------------------------------------------------
  // The configured hotels.

  /**
    In both configured hotels sharing is cheaper per person than a single
    room in either category, and standard is the cheaper category in both
    occupancies, so both phases start with standard rooms.
   */
  lemma ConfiguredRatesFavourSharing(config: HotelConfig)
    requires config in InitializeHotels().Values
    ensures var rates := config.rates;
            && SharedCostPerPerson(rates.standard) < SharedCostPerPerson(rates.superior)
            && SharedCostPerPerson(rates.superior) < SingleCostPerPerson(rates.standard)
            && SingleCostPerPerson(rates.standard) < SingleCostPerPerson(rates.superior)
            && RankShared(rates) == RankSingle(rates) == [Standard, Superior]
  {
  }

  /** El Hierro, 30 people: 15 standard shared rooms, 11850 euros for the stay. */
  lemma ElHierroThirty()
    ensures Allocate(EL_HIERRO, 30) == Ok(Allocation(15, 0, 0, 0))
    ensures Allocate(EL_HIERRO, 30).value.TotalCost(EL_HIERRO.rates) == 11850
    ensures CalculateAccommodationCost(30, "el_hierro") == Ok(395.0)
    ensures CalculateMeetingRoomCost(30, "el_hierro") == Ok(20.0 / 3.0)
    ensures CalculateTotalPricePerPerson(30, "el_hierro") == Ok(2585.0 / 3.0)
  {
    ConfiguredRatesFavourSharing(EL_HIERRO);
    StandardFirstAllocation(EL_HIERRO, 30);
    FixedCostsAtFiveNights();
  }

  /** El Hierro, 45 people: the shared phase goes on into superior rooms, one person is left for a single. */
  lemma ElHierroFortyFive()
    ensures Allocate(EL_HIERRO, 45) == Ok(Allocation(20, 0, 2, 1))
  {
    ConfiguredRatesFavourSharing(EL_HIERRO);
    StandardFirstAllocation(EL_HIERRO, 45);
  }

  /** El Hierro, 50 people: every standard room and five superior rooms, all shared. */
  lemma ElHierroFifty()
    ensures Allocate(EL_HIERRO, 50) == Ok(Allocation(20, 0, 5, 0))
  {
    ConfiguredRatesFavourSharing(EL_HIERRO);
    StandardFirstAllocation(EL_HIERRO, 50);
  }

  /**
    For the El Hierro rates the greedy allocation is the cheapest: no
    feasible way of housing the same group costs less.
   */
  lemma ElHierroAllocationIsCheapest(n: int, x: Allocation)
    requires Feasible(EL_HIERRO, n, x)
    ensures Allocate(EL_HIERRO, n).Ok?
    ensures Allocate(EL_HIERRO, n).value.TotalCost(EL_HIERRO.rates) <= x.TotalCost(EL_HIERRO.rates)
  {
    CapacityIsTight(EL_HIERRO, x);
    ConfiguredRatesFavourSharing(EL_HIERRO);
    StandardFirstAllocation(EL_HIERRO, n);
    ElHierroNightlyBound(n, x.standardShared, x.standardSingle, x.superiorShared, x.superiorSingle);
  }

  /** The nightly price of the greedy El Hierro allocation against any feasible one. */
  lemma ElHierroNightlyBound(n: int, a: int, b: int, c: int, d: int)
    requires a >= 0 && b >= 0 && c >= 0 && d >= 0
    requires a + b <= 20 && c + d <= 20 && 2 * a + b + 2 * c + d == n
    ensures var s := Min(20, n / 2);
            var odd := n % 2 == 1;
            158 * s + 136 * (if odd && s < 20 then 1 else 0)
            + 181 * (n / 2 - s) + 159 * (if odd && s == 20 then 1 else 0)
            <= 158 * a + 136 * b + 181 * c + 159 * d
  {
    // A feasible allocation has an odd number of single rooms exactly when n is odd.
    assert (b + d) % 2 == n % 2 && b + d >= n % 2;
    if n > 40 {
      // Beyond the standard rooms, at least n - 40 + b people are in superior rooms.
      assert 2 * c + d >= n - 40 + b;
    }
  }

  /** For the La Palma rates the greedy allocation is the cheapest as well. */
  lemma LaPalmaAllocationIsCheapest(n: int, x: Allocation)
    requires Feasible(LA_PALMA, n, x)
    ensures Allocate(LA_PALMA, n).Ok?
    ensures Allocate(LA_PALMA, n).value.TotalCost(LA_PALMA.rates) <= x.TotalCost(LA_PALMA.rates)
  {
    CapacityIsTight(LA_PALMA, x);
    ConfiguredRatesFavourSharing(LA_PALMA);
    StandardFirstAllocation(LA_PALMA, n);
    LaPalmaNightlyBound(n, x.standardShared, x.standardSingle, x.superiorShared, x.superiorSingle);
  }

  /** The nightly price of the greedy La Palma allocation against any feasible one. */
  lemma LaPalmaNightlyBound(n: int, a: int, b: int, c: int, d: int)
    requires a >= 0 && b >= 0 && c >= 0 && d >= 0
    requires a + b <= 21 && c + d <= 24 && 2 * a + b + 2 * c + d == n
    ensures var s := Min(21, n / 2);
            var odd := n % 2 == 1;
            164 * s + 144 * (if odd && s < 21 then 1 else 0)
            + 186 * (n / 2 - s) + 166 * (if odd && s == 21 then 1 else 0)
            <= 164 * a + 144 * b + 186 * c + 166 * d
  {
    assert (b + d) % 2 == n % 2 && b + d >= n % 2;
    if n > 42 {
      assert 2 * c + d >= n - 42 + b;
    }
  }
}
