/**
  Data model of the hotel cost calculator: room categories, nightly rates,
  room inventory, the configuration of one hotel, and the value of a room
  allocation (how many rooms of each category are used shared or single),
  together with the arithmetic on an allocation: the cost of the stay, the
  rooms used and the people housed.
 */
module HotelModel {

  /** Length of the stay in nights, fixed for the whole calculator. */
  const NIGHTS: int := 5
  /** Breakfast, lunch and dinner. */
  const MEALS_PER_DAY: int := 3
  /** Price of one meal for one person, in euros. */
  const MEAL_COST_PER_PERSON: int := 38

  /** The calculator's exceptions become explicit error values. */
  datatype Result<+T, +E> = Ok(value: T) | Err(error: E)

  function Min(x: int, y: int): (m: int)
    ensures m <= x && m <= y && (m == x || m == y)
  {
    if y < x then y else x
  }

  datatype RoomCategory = Standard | Superior {
    /** The category's name, the second component of the ranking tuples. */
    function Name(): string {
      match this
      case Standard => "standard"
      case Superior => "superior"
    }
  }

  /** Price of one room for one night, when two people share it and when one person has it. */
  datatype RoomRate = RoomRate(sharedRate: nat, singleRate: nat)

  /** Rooms available in each category; a room can be used shared or single, not both. */
  datatype RoomInventory = RoomInventory(standardCount: nat, superiorCount: nat) {
    function Count(c: RoomCategory): nat {
      match c
      case Standard => standardCount
      case Superior => superiorCount
    }
  }

  datatype HotelRates = HotelRates(standard: RoomRate, superior: RoomRate) {
    function Of(c: RoomCategory): RoomRate {
      match c
      case Standard => standard
      case Superior => superior
    }
  }

  datatype HotelConfig = HotelConfig(
    name: string,
    inventory: RoomInventory,
    rates: HotelRates,
    coffeeBreakCost: nat,   // euros per coffee break per person
    meetingRoomCost: nat)   // euros for the whole meeting-room rental
  {
    /** Every room houses at most two people. */
    function MaxCapacity(): int {
      inventory.standardCount * 2 + inventory.superiorCount * 2
    }
  }

  /**
    Rooms of each category and occupancy used by a group. The fields are
    integers, as in the source; the allocator only ever produces non-negative
    ones.
   */
  datatype Allocation = Allocation(
    standardShared: int,
    standardSingle: int,
    superiorShared: int,
    superiorSingle: int)
  {
    function SharedRooms(c: RoomCategory): int {
      match c
      case Standard => standardShared
      case Superior => superiorShared
    }

    function SingleRooms(c: RoomCategory): int {
      match c
      case Standard => standardSingle
      case Superior => superiorSingle
    }

    function WithShared(c: RoomCategory, k: int): (a: Allocation)
      ensures a.SharedRooms(c) == k
      ensures forall d :: d != c ==> a.SharedRooms(d) == SharedRooms(d)
      ensures forall d :: a.SingleRooms(d) == SingleRooms(d)
    {
      match c
      case Standard => this.(standardShared := k)
      case Superior => this.(superiorShared := k)
    }

    function WithSingle(c: RoomCategory, k: int): (a: Allocation)
      ensures a.SingleRooms(c) == k
      ensures forall d :: d != c ==> a.SingleRooms(d) == SingleRooms(d)
      ensures forall d :: a.SharedRooms(d) == SharedRooms(d)
    {
      match c
      case Standard => this.(standardSingle := k)
      case Superior => this.(superiorSingle := k)
    }

    /** Cost of the whole stay: the nightly price of every room used, times the number of nights. */
    function TotalCost(rates: HotelRates): int {
      (standardShared * rates.standard.sharedRate +
       standardSingle * rates.standard.singleRate +
       superiorShared * rates.superior.sharedRate +
       superiorSingle * rates.superior.singleRate) * NIGHTS
    }

    function TotalRoomsUsed(): int {
      standardShared + standardSingle + superiorShared + superiorSingle
    }

    /** Two people in every shared room, one in every single room. */
    function PeopleHoused(): int {
      2 * standardShared + standardSingle + 2 * superiorShared + superiorSingle
    }

    predicate NonNegative() {
      standardShared >= 0 && standardSingle >= 0 && superiorShared >= 0 && superiorSingle >= 0
    }

    /** Shared and single use of one category together never exceed its room count. */
    predicate WithinInventory(inv: RoomInventory) {
      standardShared + standardSingle <= inv.standardCount &&
      superiorShared + superiorSingle <= inv.superiorCount
    }
  }

  /** A freshly created allocation uses no rooms. */
  const EMPTY: Allocation := Allocation(0, 0, 0, 0)

  /** An allocation is a possible answer for `n` people when it houses exactly them within the inventory. */
  predicate Feasible(cfg: HotelConfig, n: int, a: Allocation) {
    a.NonNegative() && a.WithinInventory(cfg.inventory) && a.PeopleHoused() == n
  }

  /**
    The capacity is an upper bound on the people any allocation within the
    inventory can house, and it is reached by using every room shared.
   */
  lemma CapacityIsTight(cfg: HotelConfig, a: Allocation)
    requires a.NonNegative() && a.WithinInventory(cfg.inventory)
    ensures a.PeopleHoused() <= cfg.MaxCapacity()
    ensures Feasible(cfg, cfg.MaxCapacity(),
                     Allocation(cfg.inventory.standardCount, 0, cfg.inventory.superiorCount, 0))
  {
  }

  lemma TotalCostNonNegative(a: Allocation, rates: HotelRates)
    requires a.NonNegative()
    ensures a.TotalCost(rates) >= 0
    ensures a.TotalRoomsUsed() >= 0
  {
    var daily := a.standardShared * rates.standard.sharedRate +
                 a.standardSingle * rates.standard.singleRate +
                 a.superiorShared * rates.superior.sharedRate +
                 a.superiorSingle * rates.superior.singleRate;
    assert a.standardShared * rates.standard.sharedRate >= 0;
    assert a.standardSingle * rates.standard.singleRate >= 0;
    assert a.superiorShared * rates.superior.sharedRate >= 0;
    assert a.superiorSingle * rates.superior.singleRate >= 0;
    assert a.TotalCost(rates) == daily * NIGHTS;
  }

  // ---------------------------------------------------------------------------
  // Reference reading of an allocation: the list of rooms it books.

  datatype Occupancy = SharedUse | SingleUse

  /** One booked room of the stay. */
  datatype Booking = Booking(category: RoomCategory, occupancy: Occupancy) {
    function Occupants(): nat {
      match occupancy
      case SharedUse => 2
      case SingleUse => 1
    }

    function NightlyRate(rates: HotelRates): nat {
      match occupancy
      case SharedUse => rates.Of(category).sharedRate
      case SingleUse => rates.Of(category).singleRate
    }
  }

  function Repeat(b: Booking, k: nat): (s: seq<Booking>)
    ensures |s| == k
  {
    if k == 0 then [] else [b] + Repeat(b, k - 1)
  }

  /** Every room the allocation uses, category by category. */
  function Bookings(a: Allocation): seq<Booking>
    requires a.NonNegative()
  {
    Repeat(Booking(Standard, SharedUse), a.standardShared) +
    Repeat(Booking(Standard, SingleUse), a.standardSingle) +
    Repeat(Booking(Superior, SharedUse), a.superiorShared) +
    Repeat(Booking(Superior, SingleUse), a.superiorSingle)
  }

  /** What the hotel bills for one night of the booked rooms. */
  function NightlyBill(bs: seq<Booking>, rates: HotelRates): int {
    if bs == [] then 0 else bs[0].NightlyRate(rates) + NightlyBill(bs[1..], rates)
  }

  /** What the hotel bills for the booked rooms over the whole stay. */
  function StayBill(bs: seq<Booking>, rates: HotelRates): int {
    NightlyBill(bs, rates) * NIGHTS
  }

  function HeadCount(bs: seq<Booking>): int {
    if bs == [] then 0 else bs[0].Occupants() + HeadCount(bs[1..])
  }

  lemma {:induction false} BillAndHeadCountAppend(x: seq<Booking>, y: seq<Booking>, rates: HotelRates)
    ensures NightlyBill(x + y, rates) == NightlyBill(x, rates) + NightlyBill(y, rates)
    ensures HeadCount(x + y) == HeadCount(x) + HeadCount(y)
  {
    if x != [] {
      assert (x + y)[1..] == x[1..] + y;
      BillAndHeadCountAppend(x[1..], y, rates);
    } else {
      assert x + y == y;
    }
  }

  lemma {:induction false} BillAndHeadCountRepeat(b: Booking, k: nat, rates: HotelRates)
    ensures NightlyBill(Repeat(b, k), rates) == k * b.NightlyRate(rates)
    ensures HeadCount(Repeat(b, k)) == k * b.Occupants()
  {
    if k > 0 {
      var s := Repeat(b, k);
      assert s[0] == b && s[1..] == Repeat(b, k - 1);
      BillAndHeadCountRepeat(b, k - 1, rates);
    }
  }

  /**
    The cost of an allocation is the bill for the rooms it books, the rooms
    used are the number of bookings, and the people housed are their occupants.
   */
  lemma AllocationMeansBookings(a: Allocation, rates: HotelRates)
    requires a.NonNegative()
    ensures a.TotalCost(rates) == StayBill(Bookings(a), rates)
    ensures a.TotalRoomsUsed() == |Bookings(a)|
    ensures a.PeopleHoused() == HeadCount(Bookings(a))
  {
    var s1 := Repeat(Booking(Standard, SharedUse), a.standardShared);
    var s2 := Repeat(Booking(Standard, SingleUse), a.standardSingle);
    var s3 := Repeat(Booking(Superior, SharedUse), a.superiorShared);
    var s4 := Repeat(Booking(Superior, SingleUse), a.superiorSingle);
    BillAndHeadCountRepeat(Booking(Standard, SharedUse), a.standardShared, rates);
    BillAndHeadCountRepeat(Booking(Standard, SingleUse), a.standardSingle, rates);
    BillAndHeadCountRepeat(Booking(Superior, SharedUse), a.superiorShared, rates);
    BillAndHeadCountRepeat(Booking(Superior, SingleUse), a.superiorSingle, rates);
    BillAndHeadCountFour(s1, s2, s3, s4, rates);
    var nightly := a.standardShared * rates.standard.sharedRate +
                   a.standardSingle * rates.standard.singleRate +
                   a.superiorShared * rates.superior.sharedRate +
                   a.superiorSingle * rates.superior.singleRate;
    assert NightlyBill(Bookings(a), rates) == nightly;
    assert a.TotalCost(rates) == nightly * NIGHTS;
    assert HeadCount(s1) == 2 * a.standardShared && HeadCount(s2) == a.standardSingle;
    assert HeadCount(s3) == 2 * a.superiorShared && HeadCount(s4) == a.superiorSingle;
  }

  lemma BillAndHeadCountFour(s1: seq<Booking>, s2: seq<Booking>, s3: seq<Booking>, s4: seq<Booking>, rates: HotelRates)
    ensures NightlyBill(s1 + s2 + s3 + s4, rates) ==
            NightlyBill(s1, rates) + NightlyBill(s2, rates) + NightlyBill(s3, rates) + NightlyBill(s4, rates)
    ensures HeadCount(s1 + s2 + s3 + s4) == HeadCount(s1) + HeadCount(s2) + HeadCount(s3) + HeadCount(s4)
  {
    BillAndHeadCountAppend(s1, s2, rates);
    BillAndHeadCountAppend(s1 + s2, s3, rates);
    BillAndHeadCountAppend(s1 + s2 + s3, s4, rates);
  }
}
