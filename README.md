# Hotel cost calculator for the Paradores of El Hierro and La Palma

A model of the calculator in `elhierro_lapalma.py`. It prices a group's
five-night stay at one of two configured hotels.

- The allocator houses the group in two greedy phases. First it fills shared
  (two-person) rooms, cheapest price per person first. Then it puts whoever
  is left into single rooms not yet used, again cheapest first. A group above
  the hotel's capacity is refused.
- The cost calculator bills the allocated rooms for every night. It adds
  meals, coffee breaks and the meeting-room rental, and gives each figure per
  person.

The project has three modules:

- `HotelModel` (`hotel_model.dfy`) holds the data model. It has room
  categories, rates, inventory, the hotel configuration and the allocation
  value with its cost, rooms used and people housed. It also gives a
  reference reading of an allocation as the list of rooms it books.
- `Allocator` (`allocator.dfy`) holds the two phases as functions on values,
  with lemmas on what they achieve. It also holds the classes
  `RoomAllocation` and `HotelAllocator`. These run the phases in place, as
  the source does: a loop over the ranked categories with an early exit,
  assigning the fields of a mutable allocation record. Each method is proved
  equal to its phase function.
- `CostCalculator` (`cost_calculator.dfy`) holds the hotel table, the lookups
  that refuse an unknown key, the fixed costs, the per-person prices and the
  detailed totals. It also has concrete facts about the two configured
  hotels.

The source raises exceptions; here they are `Result` values. A group above the
capacity gives `CapacityExceeded(n, capacity)`. A group left partly unhoused
gives `AllocationFailed`; this is proved never to happen. An unknown hotel key
gives `UnknownHotel(key)`. A group of zero people gives `DivisionByZero`
in the accommodation, meeting-room and total per-person figures, where Python
raises `ZeroDivisionError`. The meal and coffee-break figures do not depend on
the group and succeed for zero people too. A negative count gets the empty
allocation, and its per-person figures are divided by that negative count, as in the source. A ranking
ties on price per person, then on the category name, as Python's tuple sort
does. So on equal prices "standard" comes before "superior".

At El Hierro a group of 45 fills all 20 standard rooms shared. The shared
phase then goes on into superior rooms (lines 136-140), so the result is 20
standard shared, 2 superior shared and 1 superior single room
(`CostCalculator.ElHierroFortyFive`). A group of 30 pays 395 + 418 + 42 +
200/30 = 2585/3 € per person (`CostCalculator.ElHierroThirty`).

The meal and coffee-break formulas (lines 224 and 237) count the stay as
NIGHTS days: an arrival day, NIGHTS - 2 full days and a departure day. Five
nights therefore count as five days, not the six calendar days they span.
`FormulasMatchSchedule(days)` and `ScheduledMeals(NIGHTS, NIGHTS)` use
"days" in this sense.

Where each source function is modelled:

- `RoomAllocation.get_total_cost`, `get_total_rooms_used` (lines 50-63): `HotelModel.Allocation.TotalCost`, `TotalRoomsUsed`
- `HotelConfig.get_max_capacity` (lines 82-85): `HotelModel.HotelConfig.MaxCapacity`
- `HotelAllocator.allocate_rooms` (lines 94-114): `Allocator.Allocate`, and in place `Allocator.HotelAllocator.AllocateRooms`
- `_allocate_shared_rooms` (lines 116-142): `Allocator.SharedFill`, and in place `Allocator.HotelAllocator.AllocateSharedRooms`
- `_allocate_single_rooms` (lines 144-172): `Allocator.SingleFill`, and in place `Allocator.HotelAllocator.AllocateSingleRooms`
- `_initialize_hotels` (lines 181-204): `CostCalculator.InitializeHotels`, with `EL_HIERRO` and `LA_PALMA`
- `calculate_accommodation_cost` (lines 206-216): `CostCalculator.CalculateAccommodationCost`
- `calculate_meal_cost` (lines 218-225): `CostCalculator.CalculateMealCost`
- `calculate_coffee_break_cost` (lines 227-238): `CostCalculator.CalculateCoffeeBreakCost`
- `calculate_meeting_room_cost` (lines 240-247): `CostCalculator.CalculateMeetingRoomCost`
- `calculate_total_price_per_person` (lines 249-255): `CostCalculator.CalculateTotalPricePerPerson`
- `get_detailed_allocation` (lines 257-271): `CostCalculator.GetDetailedAllocation`

## Model

| member | source | states |
|---|---|---|
| HotelModel.AllocationMeansBookings | elhierro_lapalma.py:50-63 | The stay's cost is the bill for the rooms the allocation books: each room's nightly price, for every night. The rooms used are the number of bookings, and the people housed are their occupants. |
| HotelModel.TotalCostNonNegative | elhierro_lapalma.py:50-63 | An allocation with no negative counts has a non-negative cost and a non-negative room count. |
| HotelModel.CapacityIsTight | elhierro_lapalma.py:82-85 | No allocation within the inventory houses more people than the capacity. Using every room shared houses exactly the capacity. |
| Allocator.RankCategories | elhierro_lapalma.py:119-125 | Sorting the two (cost, name) entries gives both categories once each. Standard comes first exactly when it is not dearer, so ties favour standard. |
| Allocator.RankShared | elhierro_lapalma.py:119-125 | The shared phase tries standard first exactly when its shared rate is not above superior's. |
| Allocator.RankSingle | elhierro_lapalma.py:147-153 | The single phase tries standard first exactly when its single rate is not above superior's. |
| Allocator.SharedFill | elhierro_lapalma.py:127-142 | The shared phase never changes single rooms. It places people in pairs only, so the number placed is even. |
| Allocator.SingleFill | elhierro_lapalma.py:155-172 | The single phase never changes shared rooms. |
| Allocator.SharedFillTwo | elhierro_lapalma.py:127-140 | Over two categories from an empty allocation, the first takes min(its rooms, n/2) pairs. The second takes the pairs left, up to its own rooms. The people remaining are the rest. |
| Allocator.SharedPhaseOutcome | elhierro_lapalma.py:116-142 | The first-ranked category takes every pair it can. The second gets shared rooms only once the first is full. No category is over-booked. Exactly min(total rooms, n/2) rooms are shared, and n minus twice that many people remain. |
| Allocator.SingleFillTwo | elhierro_lapalma.py:155-170 | Over two categories, the first seats people in the rooms it has not used. The second seats whoever is left, in its own unused rooms. |
| Allocator.SinglePhaseOutcome | elhierro_lapalma.py:144-172 | The inventory is still respected and shared rooms are unchanged. The first-ranked category seats min(its free rooms, remaining) people. The second seats people only once the first is full. Whoever does not fit is left over. |
| Allocator.AllocateSucceeds | elhierro_lapalma.py:102-114 | Every group of 0 to capacity people is allocated. Everybody is housed exactly, within the inventory. The shared rooms number min(rooms, n/2), and at most one room (n mod 2) is single. |
| Allocator.AllocateErrors | elhierro_lapalma.py:99-112 | The allocator fails exactly when the group exceeds the capacity, and then with an error naming both numbers. The "failed to allocate" error is never raised. |
| Allocator.AllocateNonPositive | elhierro_lapalma.py:102-114 | A group of zero, or a negative count, gets the empty allocation. |
| Allocator.AllocateFollowsRanking | elhierro_lapalma.py:116-172 | In the final allocation, the category ranked second in a phase has rooms of that phase only if the first-ranked one is full. |
| Allocator.StandardFirstAllocation | elhierro_lapalma.py:94-172 | When standard ranks first in both phases, the allocation is given outright. Standard takes min(standard rooms, n/2) shared rooms and superior shared rooms take the other pairs. An odd person goes to a standard single while one is free, otherwise to a superior single. |
| Allocator.GreedyCanMissTheCheapest | elhierro_lapalma.py:94-98 | Counterexample to "optimally" for arbitrary rates: one room of each category, three people. The greedy result books a superior single, and a feasible cheaper allocation exists, even though sharing is cheaper per person in both categories. |
| Allocator.RoomAllocation.constructor | elhierro_lapalma.py:42-48 | A new allocation record has every count zero. |
| Allocator.HotelAllocator.constructor | elhierro_lapalma.py:91-92 | The allocator keeps the hotel configuration it is given. |
| Allocator.HotelAllocator.AllocateRooms | elhierro_lapalma.py:94-114 | Returns a fresh record holding exactly `Allocate`'s allocation, or exactly `Allocate`'s error. |
| Allocator.HotelAllocator.AllocateSharedRooms | elhierro_lapalma.py:116-142 | The in-place loop leaves the record and the returned remainder equal to the shared-phase function applied to the record's old contents. |
| Allocator.HotelAllocator.AllocateSingleRooms | elhierro_lapalma.py:144-172 | The in-place loop leaves the record and the returned remainder equal to the single-phase function applied to the record's old contents. |
| CostCalculator.InitializeHotels | elhierro_lapalma.py:181-204 | The table has exactly the keys "el_hierro" and "la_palma", and each hotel holds at least 80 people. |
| CostCalculator.LookupHotel | elhierro_lapalma.py:208-211 | A key is found exactly when it is one of the two configured ones, giving that hotel. Any other key fails with an error naming it. |
| CostCalculator.CalculateCoffeeBreakCost | elhierro_lapalma.py:227-238 | Fails exactly for an unknown hotel. Otherwise it is the coffee breaks per person times the hotel's price per break. |
| CostCalculator.PerPerson | elhierro_lapalma.py:216 | A per-person share times the group size gives back the total. |
| CostCalculator.ScheduleBeforeDeparture | elhierro_lapalma.py:218-238 | Up to the day before departure, the schedule has dinner on arrival then three meals a day, and two coffee breaks on every day after arrival. |
| CostCalculator.FormulasMatchSchedule | elhierro_lapalma.py:218-238 | For every stay of two or more days, the closed meal and coffee-break formulas equal the count over the day-by-day schedule. |
| CostCalculator.FixedCostsAtFiveNights | elhierro_lapalma.py:218-238 | At five nights there are 11 meals per person (418 €) and 6 coffee breaks, 42 € at El Hierro and 48 € at La Palma. |
| CostCalculator.UnknownHotelRefused | elhierro_lapalma.py:206-260 | Every cost query with a key other than the two configured ones fails with the unknown-hotel error. |
| CostCalculator.KnownHotelErrors | elhierro_lapalma.py:206-271 | For a configured hotel, the price and the detailed allocation fail with the capacity error above capacity and with a division by zero for an empty group. They succeed exactly for every non-zero count up to the capacity. A negative count succeeds; that its allocation is the empty one is `Allocator.AllocateNonPositive`. |
| CostCalculator.DetailAgreesWithPerPerson | elhierro_lapalma.py:249-271 | The detailed totals and the per-person prices describe the same stay. Meals total 418 € a person. The meeting room totals its rental exactly once. The per-person accommodation and total price are the detailed totals shared by the group. |
| CostCalculator.DetailRooms | elhierro_lapalma.py:262-266 | The detailed allocation is the allocator's, and its accommodation total is the bill for the rooms it books. |
| CostCalculator.SharesAddUp | elhierro_lapalma.py:255 | Adding per-person shares and per-person fixed costs gives the share of the summed totals. |
| CostCalculator.ConfiguredRatesFavourSharing | elhierro_lapalma.py:184-203 | In both configured hotels sharing is cheaper per person than any single room, standard is the cheaper category, and both phases rank standard first. |
| CostCalculator.ElHierroThirty | elhierro_lapalma.py:184-193 | El Hierro, 30 people: 15 standard shared rooms, 11850 € for the stay, 395 € a person for accommodation, 20/3 € for the meeting room and 2585/3 € in total. |
| CostCalculator.ElHierroFortyFive | elhierro_lapalma.py:184-193 | El Hierro, 45 people: 20 standard shared, 2 superior shared and 1 superior single room. |
| CostCalculator.ElHierroFifty | elhierro_lapalma.py:184-193 | El Hierro, 50 people: 20 standard shared and 5 superior shared rooms. |
| CostCalculator.ElHierroAllocationIsCheapest | elhierro_lapalma.py:184-193 | For the El Hierro table, no feasible allocation of the same group costs less than the greedy one. |
| CostCalculator.ElHierroNightlyBound | elhierro_lapalma.py:184-193 | The nightly price of the greedy El Hierro allocation is at most that of any feasible allocation. |
| CostCalculator.LaPalmaAllocationIsCheapest | elhierro_lapalma.py:194-203 | For the La Palma table, no feasible allocation of the same group costs less than the greedy one. |
| CostCalculator.LaPalmaNightlyBound | elhierro_lapalma.py:194-203 | The nightly price of the greedy La Palma allocation is at most that of any feasible allocation. |

## Left out

- `print_comparison` and `main` (elhierro_lapalma.py:273-312) only print tables; console output is not modelled.
- `MEETING_ROOM_DAYS` (line 15) is only printed in `print_comparison`'s header (line 286) and never enters a computation, so the model has no counterpart.
- Floating point: rates and costs are integers, and per-person figures are exact rational numbers. The source divides in floating point, so its per-person totals can differ from the model's in the last bits. Its meeting-room total `(m / n) * n` may not give back exactly `m`; in the model it does.
- Rates and room counts are natural numbers. The source's fields are untyped floats and ints, but only the two non-negative hotel tables are built.
- The hotel table is a constant function, not a field of a calculator object. The source builds it once in the constructor and never changes it.
- `RoomCategory` and `OccupancyType` are Python enums. The model uses a datatype for each; the category's string value is used only as the tie-breaker in the ranking.
