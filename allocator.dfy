/**
  The greedy room allocator. A group of `n` people is split into rooms in two
  phases: first every category, cheapest shared price per person first, takes
  as many two-person rooms as it has left and the group still fills; then
  every category, cheapest single price first, takes the remaining people into
  the rooms it has not yet used. A group larger than twice the room count is
  refused before anything is allocated.

  The functions below are the specification of those phases on values; the
  class `HotelAllocator` performs them in place on a `RoomAllocation` object
  and is proved to agree with them.
 */
module Allocator {
  import opened HotelModel

  datatype AllocError =
    | CapacityExceeded(groupSize: int, maxCapacity: int)  // the group is larger than the hotel
    | AllocationFailed                                      // people were left over after both phases

  /** An allocation in progress: the rooms assigned so far and the people not yet placed. */
  datatype Fill = Fill(rooms: Allocation, remaining: int)

  // ---------------------------------------------------------------------------
  // Ranking the categories: the source sorts (cost per person, category name)
  // tuples, so equal costs are ordered by the names.

  /** Lexicographic order on strings, a proper prefix coming first. */
  predicate StringLess(s: string, t: string) {
    t != [] && (s == [] || s[0] < t[0] || (s[0] == t[0] && StringLess(s[1..], t[1..])))
  }

  /** Tuple order on (cost, name) pairs: by cost, then by name. */
  predicate EntryLess(x: (real, string), y: (real, string)) {
    x.0 < y.0 || (x.0 == y.0 && StringLess(x.1, y.1))
  }

  /**
    Sorting the two entries puts the superior category first only when its
    entry is strictly smaller; so standard comes first exactly when it is not
    dearer, ties included.
   */
  function RankCategories(standardCost: real, superiorCost: real): (order: seq<RoomCategory>)
    ensures order == [Standard, Superior] || order == [Superior, Standard]
    ensures order[0] == Standard <==> standardCost <= superiorCost
  {
    assert !StringLess(Superior.Name(), Standard.Name()) by {
      assert Superior.Name()[0] == Standard.Name()[0] && Superior.Name()[1] > Standard.Name()[1];
      assert Superior.Name()[1..][0] > Standard.Name()[1..][0];
    }
    if EntryLess((superiorCost, Superior.Name()), (standardCost, Standard.Name()))
    then [Superior, Standard]
    else [Standard, Superior]
  }

  /** Price per person of a room used by two people. */
  function SharedCostPerPerson(rate: RoomRate): real {
    rate.sharedRate as real / 2.0
  }

  /** Price per person of a room used by one person. */
  function SingleCostPerPerson(rate: RoomRate): real {
    rate.singleRate as real
  }

  /** Order of the shared phase: halving the rates keeps their order. */
  function RankShared(rates: HotelRates): (order: seq<RoomCategory>)
    ensures order == [Standard, Superior] || order == [Superior, Standard]
    ensures order[0] == Standard <==> rates.standard.sharedRate <= rates.superior.sharedRate
  {
    RankCategories(SharedCostPerPerson(rates.standard), SharedCostPerPerson(rates.superior))
  }

  /** Order of the single phase. */
  function RankSingle(rates: HotelRates): (order: seq<RoomCategory>)
    ensures order == [Standard, Superior] || order == [Superior, Standard]
    ensures order[0] == Standard <==> rates.standard.singleRate <= rates.superior.singleRate
  {
    RankCategories(SingleCostPerPerson(rates.standard), SingleCostPerPerson(rates.superior))
  }

  // ---------------------------------------------------------------------------
  // The two phases as functions.

  /**
    One category's turn in the shared phase: it takes as many shared rooms as
    it has available and the remaining people fill in pairs. The count is
    assigned, not added, as in the source.
   */
  function SharedStep(cfg: HotelConfig, f: Fill, c: RoomCategory): Fill
    requires f.remaining > 0
  {
    var available := cfg.inventory.Count(c) - f.rooms.SharedRooms(c);
    var use := Min(available, f.remaining / 2);
    Fill(f.rooms.WithShared(c, use), f.remaining - use * 2)
  }

  /**
    The shared phase over the categories in `order`, stopping once nobody is
    left. It never touches single rooms and places people two at a time.
   */
  function SharedFill(cfg: HotelConfig, f: Fill, order: seq<RoomCategory>): (g: Fill)
    ensures forall c :: g.rooms.SingleRooms(c) == f.rooms.SingleRooms(c)
    ensures (f.remaining - g.remaining) % 2 == 0
    decreases |order|
  {
    if order == [] || f.remaining <= 0 then f
    else SharedFill(cfg, SharedStep(cfg, f, order[0]), order[1..])
  }

  /**
    One category's turn in the single phase: its rooms not yet used for
    either occupancy take one remaining person each.
   */
  function SingleStep(cfg: HotelConfig, f: Fill, c: RoomCategory): Fill
    requires f.remaining > 0
  {
    var available := cfg.inventory.Count(c) - f.rooms.SharedRooms(c) - f.rooms.SingleRooms(c);
    var use := Min(available, f.remaining);
    Fill(f.rooms.WithSingle(c, use), f.remaining - use)
  }

  /** The single phase over the categories in `order`; it never touches shared rooms. */
  function SingleFill(cfg: HotelConfig, f: Fill, order: seq<RoomCategory>): (g: Fill)
    ensures forall c :: g.rooms.SharedRooms(c) == f.rooms.SharedRooms(c)
    decreases |order|
  {
    if order == [] || f.remaining <= 0 then f
    else SingleFill(cfg, SingleStep(cfg, f, order[0]), order[1..])
  }

  function SharedPhase(cfg: HotelConfig, n: int): Fill {
    SharedFill(cfg, Fill(EMPTY, n), RankShared(cfg.rates))
  }

  function SinglePhase(cfg: HotelConfig, f: Fill): Fill {
    SingleFill(cfg, f, RankSingle(cfg.rates))
  }

  /** The whole allocation of `n` people, or the reason it is refused. */
  function Allocate(cfg: HotelConfig, n: int): Result<Allocation, AllocError> {
    if n > cfg.MaxCapacity() then Err(CapacityExceeded(n, cfg.MaxCapacity()))
    else
      var done := SinglePhase(cfg, SharedPhase(cfg, n));
      if done.remaining > 0 then Err(AllocationFailed) else Ok(done.rooms)
  }

  // ---------------------------------------------------------------------------
  // What the phases achieve.

  /**
    The shared phase over two distinct categories, started on an empty
    allocation: the first takes min(its rooms, n / 2) pairs, the second the
    pairs the first could not take, up to its own rooms.
   */
  lemma SharedFillTwo(cfg: HotelConfig, n: int, first: RoomCategory, second: RoomCategory)
    requires n >= 0 && first != second
    ensures var f := SharedFill(cfg, Fill(EMPTY, n), [first, second]);
            var inv := cfg.inventory;
            && f.rooms.SharedRooms(first) == Min(inv.Count(first), n / 2)
            && f.rooms.SharedRooms(second)
               == (if n / 2 > inv.Count(first) then Min(inv.Count(second), n / 2 - inv.Count(first)) else 0)
            && f.remaining == n - 2 * (f.rooms.SharedRooms(first) + f.rooms.SharedRooms(second))
  {
    var inv := cfg.inventory;
    var f0 := Fill(EMPTY, n);
    if n > 0 {
      var f1 := SharedStep(cfg, f0, first);
      assert [first, second][1..] == [second];
      assert SharedFill(cfg, f0, [first, second]) == SharedFill(cfg, f1, [second]);
      assert f1.rooms.SharedRooms(first) == Min(inv.Count(first), n / 2);
      assert f1.rooms.SharedRooms(second) == 0;
      if f1.remaining > 0 {
        var f2 := SharedStep(cfg, f1, second);
        assert [second][1..] == [];
        assert SharedFill(cfg, f1, [second]) == f2;
        if n / 2 > inv.Count(first) {
          assert f1.remaining / 2 == n / 2 - inv.Count(first);
        } else {
          assert f1.remaining / 2 == 0;
        }
      }
    }
  }

  /**
    The shared phase, started on an empty allocation: the first-ranked
    category takes every pair it can, the second one takes shared rooms only
    once the first is full, and together they use min(rooms, n / 2) shared
    rooms within the inventory.
   */
  lemma SharedPhaseOutcome(cfg: HotelConfig, n: int)
    requires n >= 0
    ensures var f := SharedPhase(cfg, n);
            var order := RankShared(cfg.rates);
            var inv := cfg.inventory;
            var first, second := order[0], order[1];
            && f.rooms.NonNegative()
            && f.rooms.standardSingle == 0 && f.rooms.superiorSingle == 0
            && f.rooms.standardShared <= inv.standardCount
            && f.rooms.superiorShared <= inv.superiorCount
            && f.rooms.SharedRooms(first) == Min(inv.Count(first), n / 2)
            && (f.rooms.SharedRooms(second) > 0 ==> f.rooms.SharedRooms(first) == inv.Count(first))
            && f.rooms.standardShared + f.rooms.superiorShared
               == Min(inv.standardCount + inv.superiorCount, n / 2)
            && f.remaining == n - 2 * (f.rooms.standardShared + f.rooms.superiorShared)
  {
    var order := RankShared(cfg.rates);
    SharedFillTwo(cfg, n, order[0], order[1]);
    assert order == [order[0], order[1]];
    var f := SharedPhase(cfg, n);
    assert f.rooms.SingleRooms(Standard) == 0 && f.rooms.SingleRooms(Superior) == 0;
    assert f.rooms.standardShared + f.rooms.superiorShared
           == f.rooms.SharedRooms(order[0]) + f.rooms.SharedRooms(order[1]);
  }

  /**
    The single phase over two distinct categories: the first seats people in
    its rooms not yet used, the second seats whoever is still left in its own.
   */
  lemma SingleFillTwo(cfg: HotelConfig, f: Fill, first: RoomCategory, second: RoomCategory)
    requires f.remaining >= 0 && first != second
    requires f.rooms.SingleRooms(first) == 0 && f.rooms.SingleRooms(second) == 0
    requires f.rooms.SharedRooms(first) <= cfg.inventory.Count(first)
    requires f.rooms.SharedRooms(second) <= cfg.inventory.Count(second)
    ensures var g := SingleFill(cfg, f, [first, second]);
            var inv := cfg.inventory;
            var free1 := inv.Count(first) - f.rooms.SharedRooms(first);
            var free2 := inv.Count(second) - f.rooms.SharedRooms(second);
            && g.rooms.SingleRooms(first) == Min(free1, f.remaining)
            && g.rooms.SingleRooms(second) == (if f.remaining > free1 then Min(free2, f.remaining - free1) else 0)
            && g.remaining == f.remaining - g.rooms.SingleRooms(first) - g.rooms.SingleRooms(second)
  {
    if f.remaining > 0 {
      var f1 := SingleStep(cfg, f, first);
      assert [first, second][1..] == [second];
      assert SingleFill(cfg, f, [first, second]) == SingleFill(cfg, f1, [second]);
      assert f1.rooms.SingleRooms(second) == 0;
      if f1.remaining > 0 {
        var f2 := SingleStep(cfg, f1, second);
        assert [second][1..] == [];
        assert SingleFill(cfg, f1, [second]) == f2;
      }
    }
  }

  /**
    The single phase after the shared one: the first-ranked category seats
    remaining people in the rooms the shared phase left it, the second only
    once those are gone, and whoever does not fit is left over.
   */
  lemma SinglePhaseOutcome(cfg: HotelConfig, f: Fill)
    requires f.rooms.NonNegative() && f.rooms.WithinInventory(cfg.inventory)
    requires f.rooms.standardSingle == 0 && f.rooms.superiorSingle == 0
    requires f.remaining >= 0
    ensures var g := SinglePhase(cfg, f);
            var order := RankSingle(cfg.rates);
            var inv := cfg.inventory;
            var first, second := order[0], order[1];
            var free1 := inv.Count(first) - f.rooms.SharedRooms(first);
            var free2 := inv.Count(second) - f.rooms.SharedRooms(second);
            && g.rooms.NonNegative() && g.rooms.WithinInventory(inv)
            && (forall c :: g.rooms.SharedRooms(c) == f.rooms.SharedRooms(c))
            && g.rooms.SingleRooms(first) == Min(free1, f.remaining)
            && (g.rooms.SingleRooms(second) > 0 ==>
                  g.rooms.SharedRooms(first) + g.rooms.SingleRooms(first) == inv.Count(first))
            && g.rooms.standardSingle + g.rooms.superiorSingle == Min(free1 + free2, f.remaining)
            && g.remaining == f.remaining - (g.rooms.standardSingle + g.rooms.superiorSingle)
  {
    var order := RankSingle(cfg.rates);
    assert order == [order[0], order[1]];
    assert f.rooms.SingleRooms(order[0]) == 0 && f.rooms.SingleRooms(order[1]) == 0;
    assert f.rooms.SharedRooms(order[0]) <= cfg.inventory.Count(order[0]);
    assert f.rooms.SharedRooms(order[1]) <= cfg.inventory.Count(order[1]);
    SingleFillTwo(cfg, f, order[0], order[1]);
    var g := SinglePhase(cfg, f);
    assert g.rooms.standardSingle + g.rooms.superiorSingle
           == g.rooms.SingleRooms(order[0]) + g.rooms.SingleRooms(order[1]);
    assert f.rooms.standardShared + f.rooms.superiorShared
           == f.rooms.SharedRooms(order[0]) + f.rooms.SharedRooms(order[1]);
  }

  /**
    Every group of 0 to `MaxCapacity()` people is allocated: the second
    failure is never reached, everybody is housed exactly, no category is
    over-booked, min(rooms, n / 2) rooms are shared and at most one room is
    single.
   */
  lemma AllocateSucceeds(cfg: HotelConfig, n: int)
    requires 0 <= n <= cfg.MaxCapacity()
    ensures Allocate(cfg, n).Ok?
    ensures var a := Allocate(cfg, n).value;
            && Feasible(cfg, n, a)
            && a.TotalRoomsUsed() <= cfg.inventory.standardCount + cfg.inventory.superiorCount
            && a.standardShared + a.superiorShared
               == Min(cfg.inventory.standardCount + cfg.inventory.superiorCount, n / 2)
            && a.standardSingle + a.superiorSingle == n % 2
  {
    var rooms := cfg.inventory.standardCount + cfg.inventory.superiorCount;
    var f := SharedPhase(cfg, n);
    SharedPhaseOutcome(cfg, n);
    assert n / 2 <= rooms;
    assert f.remaining == n % 2;
    SinglePhaseOutcome(cfg, f);
    var g := SinglePhase(cfg, f);
    assert n % 2 == 1 ==> f.rooms.standardShared + f.rooms.superiorShared < rooms;
    assert g.remaining == 0;
    assert Allocate(cfg, n) == Ok(g.rooms);
  }

  /**
    The order rules of both phases on the final allocation: a category ranked
    second in a phase only gets rooms in that phase once the first-ranked one
    has none left.
   */
  lemma AllocateFollowsRanking(cfg: HotelConfig, n: int)
    requires 0 <= n <= cfg.MaxCapacity()
    ensures Allocate(cfg, n).Ok?
    ensures var a := Allocate(cfg, n).value;
            var inv := cfg.inventory;
            var shared, single := RankShared(cfg.rates), RankSingle(cfg.rates);
            && a.SharedRooms(shared[0]) == Min(inv.Count(shared[0]), n / 2)
            && (a.SharedRooms(shared[1]) > 0 ==> a.SharedRooms(shared[0]) == inv.Count(shared[0]))
            && (a.SingleRooms(single[1]) > 0 ==>
                  a.SharedRooms(single[0]) + a.SingleRooms(single[0]) == inv.Count(single[0]))
  {
    var f := SharedPhase(cfg, n);
    SharedPhaseOutcome(cfg, n);
    SinglePhaseOutcome(cfg, f);
  }

  /**
    When standard rooms rank first in both phases, the allocation is
    determined outright: standard shared rooms up to the inventory, superior
    shared rooms for the other pairs, and the odd person, if any, in a
    standard single while one is free, otherwise in a superior single.
   */
  lemma StandardFirstAllocation(cfg: HotelConfig, n: int)
    requires 0 <= n <= cfg.MaxCapacity()
    requires RankShared(cfg.rates) == RankSingle(cfg.rates) == [Standard, Superior]
    ensures var std := cfg.inventory.standardCount;
            var s := Min(std, n / 2);
            var odd := n % 2 == 1;
            Allocate(cfg, n) == Ok(Allocation(s, if odd && s < std then 1 else 0,
                                              n / 2 - s, if odd && s == std then 1 else 0))
  {
    AllocateSucceeds(cfg, n);
    AllocateFollowsRanking(cfg, n);
  }

  /** A group of no one, or a negative count, gets an empty allocation. */
  lemma AllocateNonPositive(cfg: HotelConfig, n: int)
    requires n <= 0
    ensures Allocate(cfg, n) == Ok(EMPTY)
  {
  }

  /**
    The allocator fails exactly for groups above the capacity, and then with
    the capacity error naming the group size and the capacity; the
    'could not allocate' failure is unreachable.
   */
  lemma AllocateErrors(cfg: HotelConfig, n: int)
    ensures Allocate(cfg, n).Err? <==> n > cfg.MaxCapacity()
    ensures n > cfg.MaxCapacity() ==> Allocate(cfg, n) == Err(CapacityExceeded(n, cfg.MaxCapacity()))
    ensures Allocate(cfg, n) != Err(AllocationFailed)
  {
    if n <= 0 {
      AllocateNonPositive(cfg, n);
    } else if n <= cfg.MaxCapacity() {
      AllocateSucceeds(cfg, n);
    }
  }

  /**
    The greedy policy is not cost-optimal for every rate table, even when
    sharing is cheaper per person than a single room in both categories: with
    one room of each category and three people it books a superior single
    where a standard single and a superior shared room cost less.
   */
  lemma GreedyCanMissTheCheapest()
    ensures var cfg := HotelConfig("", RoomInventory(1, 1),
                                   HotelRates(RoomRate(100, 60), RoomRate(110, 200)), 0, 0);
            var other := Allocation(0, 1, 1, 0);
            && SharedCostPerPerson(cfg.rates.standard) < SingleCostPerPerson(cfg.rates.standard)
            && SharedCostPerPerson(cfg.rates.superior) < SingleCostPerPerson(cfg.rates.superior)
            && Allocate(cfg, 3) == Ok(Allocation(1, 0, 0, 1))
            && Feasible(cfg, 3, other)
            && other.TotalCost(cfg.rates) < Allocate(cfg, 3).value.TotalCost(cfg.rates)
  {
    var cfg := HotelConfig("", RoomInventory(1, 1),
                           HotelRates(RoomRate(100, 60), RoomRate(110, 200)), 0, 0);
    assert RankShared(cfg.rates) == [Standard, Superior];
    assert RankSingle(cfg.rates) == [Standard, Superior];
    var f1 := SharedStep(cfg, Fill(EMPTY, 3), Standard);
    assert f1 == Fill(Allocation(1, 0, 0, 0), 1);
    var f2 := SharedStep(cfg, f1, Superior);
    assert f2 == f1;
    assert SharedPhase(cfg, 3) == f1 by {
      assert [Standard, Superior][1..] == [Superior];
      assert [Superior][1..] == [];
    }
    var g1 := SingleStep(cfg, f1, Standard);
    assert g1 == f1;
    var g2 := SingleStep(cfg, g1, Superior);
    assert g2 == Fill(Allocation(1, 0, 0, 1), 0);
    assert SinglePhase(cfg, f1) == g2 by {
      assert [Standard, Superior][1..] == [Superior];
      assert [Superior][1..] == [];
    }
  }

  // ---------------------------------------------------------------------------
  // The allocator as the source runs it: in place on a mutable record.

  /** The allocation record the allocator fills in field by field. */
  class RoomAllocation {
    var standardShared: int
    var standardSingle: int
    var superiorShared: int
    var superiorSingle: int

    constructor ()
      ensures Value() == EMPTY
    {
      standardShared, standardSingle, superiorShared, superiorSingle := 0, 0, 0, 0;
    }

    /** The record's current contents. */
    function Value(): Allocation
      reads this
    {
      Allocation(standardShared, standardSingle, superiorShared, superiorSingle)
    }
  }

  class HotelAllocator {
    const config: HotelConfig

    constructor (config: HotelConfig)
      ensures this.config == config
    {
      this.config := config;
    }

    /** Allocates a fresh record for `numPeople`, or reports why it cannot. */
    method AllocateRooms(numPeople: int) returns (r: Result<RoomAllocation, AllocError>)
      ensures r.Ok? <==> Allocate(config, numPeople).Ok?
      ensures r.Err? ==> r.error == Allocate(config, numPeople).error
      ensures r.Ok? ==> fresh(r.value) && r.value.Value() == Allocate(config, numPeople).value
    {
      if numPeople > config.MaxCapacity() {
        return Err(CapacityExceeded(numPeople, config.MaxCapacity()));
      }
      var allocation := new RoomAllocation();
      var peopleRemaining := numPeople;
      peopleRemaining := AllocateSharedRooms(allocation, peopleRemaining);
      peopleRemaining := AllocateSingleRooms(allocation, peopleRemaining);
      if peopleRemaining > 0 {
        return Err(AllocationFailed);
      }
      return Ok(allocation);
    }

    /** The shared phase, in place; returns the people still to place. */
    method AllocateSharedRooms(allocation: RoomAllocation, peopleRemaining: int) returns (remaining: int)
      modifies allocation
      ensures Fill(allocation.Value(), remaining)
              == SharedFill(config, Fill(old(allocation.Value()), peopleRemaining), RankShared(config.rates))
    {
      var roomCosts := RankShared(config.rates);
      remaining := peopleRemaining;
      var i := 0;
      while i < |roomCosts|
        invariant 0 <= i <= |roomCosts|
        invariant SharedFill(config, Fill(allocation.Value(), remaining), roomCosts[i..])
                  == SharedFill(config, Fill(old(allocation.Value()), peopleRemaining), roomCosts)
      {
        if remaining <= 0 {
          break;
        }
        ghost var before := Fill(allocation.Value(), remaining);
        assert roomCosts[i..][1..] == roomCosts[i + 1..];
        if roomCosts[i] == Standard {
          var roomsAvailable := config.inventory.standardCount - allocation.standardShared;
          var roomsToUse := Min(roomsAvailable, remaining / 2);
          allocation.standardShared := roomsToUse;
          remaining := remaining - roomsToUse * 2;
        } else {
          var roomsAvailable := config.inventory.superiorCount - allocation.superiorShared;
          var roomsToUse := Min(roomsAvailable, remaining / 2);
          allocation.superiorShared := roomsToUse;
          remaining := remaining - roomsToUse * 2;
        }
        assert Fill(allocation.Value(), remaining) == SharedStep(config, before, roomCosts[i]);
        i := i + 1;
      }
    }

    /** The single phase, in place; returns the people still to place. */
    method AllocateSingleRooms(allocation: RoomAllocation, peopleRemaining: int) returns (remaining: int)
      modifies allocation
      ensures Fill(allocation.Value(), remaining)
              == SingleFill(config, Fill(old(allocation.Value()), peopleRemaining), RankSingle(config.rates))
    {
      var roomCosts := RankSingle(config.rates);
      remaining := peopleRemaining;
      var i := 0;
      while i < |roomCosts|
        invariant 0 <= i <= |roomCosts|
        invariant SingleFill(config, Fill(allocation.Value(), remaining), roomCosts[i..])
                  == SingleFill(config, Fill(old(allocation.Value()), peopleRemaining), roomCosts)
      {
        if remaining <= 0 {
          break;
        }
        ghost var before := Fill(allocation.Value(), remaining);
        assert roomCosts[i..][1..] == roomCosts[i + 1..];
        if roomCosts[i] == Standard {
          var roomsAvailable := config.inventory.standardCount
                                - allocation.standardShared - allocation.standardSingle;
          var roomsToUse := Min(roomsAvailable, remaining);
          allocation.standardSingle := roomsToUse;
          remaining := remaining - roomsToUse;
        } else {
          var roomsAvailable := config.inventory.superiorCount
                                - allocation.superiorShared - allocation.superiorSingle;
          var roomsToUse := Min(roomsAvailable, remaining);
          allocation.superiorSingle := roomsToUse;
          remaining := remaining - roomsToUse;
        }
        assert Fill(allocation.Value(), remaining) == SingleStep(config, before, roomCosts[i]);
        i := i + 1;
      }
    }
  }
}
