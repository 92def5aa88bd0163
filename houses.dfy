/** The house store: an ordered list of houses with a selection, the
    per-house availability and booking tables, and the `loading`/`error`
    flags; the active-house getter, lookup by id, the defaulting table
    lookups, and the actions. */
module Houses {
  import opened Options
  import opened Seqs
  import opened Entities
  import opened Bookings

  datatype HouseStatus = Active | Inactive | UnderMaintenance | Sold

  datatype Address = Address(street: string, city: string, state: string, zipCode: string, country: string)
  datatype Contact = Contact(userId: string, name: string, contact: string)
  /** Check-in and check-out times (`HH:mm`), stay limits in days, and the
      fees, in whole units. */
  datatype HouseSettings = HouseSettings(
    checkInTime: string, checkOutTime: string, minStay: int, maxStay: int,
    cleaningFee: int, securityDeposit: int)

  /** A house apart from its id and timestamps; location and images are
      left out. */
  datatype HouseData = HouseData(
    name: string,
    description: string,
    address: Address,
    features: seq<string>,
    status: HouseStatus,
    owner: Contact,
    manager: Option<Contact>,
    settings: HouseSettings)

  type House = Record<HouseData>

  /** `Partial<House>` without the shared fields. */
  datatype HouseUpdates = HouseUpdates(
    name: Option<string>,
    description: Option<string>,
    address: Option<Address>,
    features: Option<seq<string>>,
    status: Option<HouseStatus>,
    owner: Option<Contact>,
    manager: Option<Contact>,
    settings: Option<HouseSettings>)

  type HousePatch = Patch<HouseUpdates>

  datatype DayState = Available | Booked | Blocked

  /** One day of a house's availability. */
  datatype Availability = Availability(
    houseId: string, date: int, status: DayState, bookingId: Option<string>, blockReason: Option<string>)

  // ---------------------------------------------------------------- getters

  /** activeHouses: the houses whose status is active, in list order. */
  function ActiveHouses(houses: seq<House>): (r: seq<House>)
    ensures forall h :: h in r <==> h in houses && h.data.status == Active
    ensures |r| <= |houses|
  {
    Filter(houses, (h: House) => h.data.status == Active)
  }

  /** activeHouses keeps the list order, and is all of the list exactly when
      every house is active. */
  lemma ActiveHousesKeepOrder(houses: seq<House>)
    ensures IsSubsequence(ActiveHouses(houses), houses)
    ensures (forall h :: h in houses ==> h.data.status == Active) ==> ActiveHouses(houses) == houses
  {
    FilterIsSubsequence(houses, (h: House) => h.data.status == Active);
    if forall h :: h in houses ==> h.data.status == Active {
      FilterKeepsAll(houses, (h: House) => h.data.status == Active);
    }
  }

  /** `table[houseId] || []`: the stored list, or the empty list for a house
      never fetched. (A stored list is an array, which is truthy even when
      empty, so a stored list is always returned as stored.) House ids are
      taken never to be names inherited by every JavaScript object, such as
      `toString`, which the source would look up on the prototype. */
  function Lookup<V>(table: map<string, seq<V>>, houseId: string): (r: seq<V>)
    ensures houseId in table ==> r == table[houseId]
    ensures houseId !in table ==> r == []
  {
    if houseId in table then table[houseId] else []
  }

  // ---------------------------------------------------------------- updates

  /** `{...house, ...updates, updatedAt: now}`. */
  function MergeHouse(house: House, patch: HousePatch, now: int): House {
    var u := patch.data;
    var d := house.data;
    Merge(house, patch, HouseData(
      u.name.GetOr(d.name),
      u.description.GetOr(d.description),
      u.address.GetOr(d.address),
      u.features.GetOr(d.features),
      u.status.GetOr(d.status),
      u.owner.GetOr(d.owner),
      u.manager.OrElse(d.manager),
      u.settings.GetOr(d.settings)), now)
  }

  const NoHouseUpdates := HouseUpdates(None, None, None, None, None, None, None, None)

  /** An empty update only refreshes `updatedAt`; merging the same update
      twice is merging it once. */
  lemma MergeHouseProperties(house: House, patch: HousePatch, now: int)
    ensures MergeHouse(house, Patch(None, None, None, NoHouseUpdates), now) == house.(updatedAt := now)
    ensures MergeHouse(MergeHouse(house, patch, now), patch, now) == MergeHouse(house, patch, now)
  {
  }

  /** The house list after `updateHouse`. */
  function HousesAfterUpdate(houses: seq<House>, id: string, patch: HousePatch, now: int): seq<House> {
    ApplyFirst(houses, id, (h: House) => MergeHouse(h, patch, now))
  }

  /** Deactivating a house through an update removes it from activeHouses,
      whatever else the update held; no other house is affected. */
  lemma DeactivatedHouseLeavesActive(houses: seq<House>, id: string, patch: HousePatch, now: int)
    requires HasId(houses, id) && patch.data.status.Some? && patch.data.status.value != Active
    ensures var r := HousesAfterUpdate(houses, id, patch, now);
            r[IndexOf(houses, id)] !in ActiveHouses(r) &&
            forall k :: 0 <= k < |houses| && k != IndexOf(houses, id) ==> r[k] == houses[k]
  {
  }

  // ---------------------------------------------------------------- the store

  class HouseStore {
    var houses: seq<House>
    var selectedHouse: Option<House>
    var houseAvailability: map<string, seq<Availability>>
    var houseBookings: map<string, seq<Booking>>
    var loading: bool
    var error: Option<string>

    constructor ()
      ensures houses == [] && selectedHouse == None && houseAvailability == map[] && houseBookings == map[]
      ensures !loading && error == None
    {
      houses := [];
      selectedHouse := None;
      houseAvailability := map[];
      houseBookings := map[];
      loading := false;
      error := None;
    }

    /** getHouseById. */
    function GetHouseById(id: string): Option<House>
      reads this
    {
      FindById(houses, id)
    }

    /** getHouseAvailability. */
    function GetHouseAvailability(houseId: string): seq<Availability>
      reads this
    {
      Lookup(houseAvailability, houseId)
    }

    /** getHouseBookings. */
    function GetHouseBookings(houseId: string): seq<Booking>
      reads this
    {
      Lookup(houseBookings, houseId)
    }

    /** The selection and the two tables. */
    twostate predicate TablesUnchanged()
      reads this
    {
      selectedHouse == old(selectedHouse) && houseAvailability == old(houseAvailability) &&
      houseBookings == old(houseBookings)
    }

    method FetchHouses()
      modifies this
      ensures houses == [] && TablesUnchanged()
      ensures !loading && error == None
    {
      loading := true;
      error := None;
      houses := [];
      loading := false;
    }

    method AddHouse(house: HouseData, freshId: string, now: int) returns (newHouse: House)
      modifies this
      ensures newHouse == Stamp(house, freshId, now)
      ensures houses == old(houses) + [newHouse]
      ensures TablesUnchanged() && !loading && error == None
    {
      loading := true;
      error := None;
      newHouse := Stamp(house, freshId, now);
      houses := houses + [newHouse];
      loading := false;
    }

    method UpdateHouse(houseId: string, updates: HousePatch, now: int)
      modifies this
      ensures houses == HousesAfterUpdate(old(houses), houseId, updates, now)
      ensures TablesUnchanged() && !loading && error == None
    {
      loading := true;
      error := None;
      var index := IndexOf(houses, houseId);
      if index != -1 {
        houses := houses[index := MergeHouse(houses[index], updates, now)];
      }
      loading := false;
    }

    method DeleteHouse(houseId: string)
      modifies this
      ensures houses == RemoveById(old(houses), houseId)
      ensures TablesUnchanged() && !loading && error == None
    {
      loading := true;
      error := None;
      houses := RemoveById(houses, houseId);
      loading := false;
    }

    /** The stubbed fetch stores an empty availability list for the house;
        the date range is not consulted. */
    method FetchHouseAvailability(houseId: string, startDate: int, endDate: int)
      modifies this
      ensures houseAvailability == old(houseAvailability)[houseId := []]
      ensures GetHouseAvailability(houseId) == []
      ensures houses == old(houses) && selectedHouse == old(selectedHouse) && houseBookings == old(houseBookings)
      ensures !loading && error == None
    {
      loading := true;
      error := None;
      houseAvailability := houseAvailability[houseId := []];
      loading := false;
    }

    /** The stubbed fetch stores an empty booking list for the house. */
    method FetchHouseBookings(houseId: string)
      modifies this
      ensures houseBookings == old(houseBookings)[houseId := []]
      ensures GetHouseBookings(houseId) == []
      ensures houses == old(houses) && selectedHouse == old(selectedHouse)
      ensures houseAvailability == old(houseAvailability)
      ensures !loading && error == None
    {
      loading := true;
      error := None;
      houseBookings := houseBookings[houseId := []];
      loading := false;
    }

    method SetSelectedHouse(house: Option<House>)
      modifies this
      ensures selectedHouse == house
      ensures houses == old(houses) && houseAvailability == old(houseAvailability)
      ensures houseBookings == old(houseBookings) && loading == old(loading) && error == old(error)
    {
      selectedHouse := house;
    }
  }

  /** A house never fetched reads as the empty list; storing a list for one
      house leaves the lookup of every other house as it was, and the stored
      house then reads back the stored list. */
  lemma LookupAfterStore<V>(table: map<string, seq<V>>, houseId: string, other: string, v: seq<V>)
    ensures Lookup<V>(map[], houseId) == []
    ensures Lookup(table[houseId := v], houseId) == v
    ensures other != houseId ==> Lookup(table[houseId := v], other) == Lookup(table, other)
  {
  }
}
