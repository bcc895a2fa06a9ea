/** `NuberDispatch` as a sequential state machine: the FIFO queue of idle
    drivers, the "bookings awaiting driver" counter, the region registry and
    the logging switch. Blocking in `getDriver` is a precondition here. */
module Dispatch {
  import opened Wrappers
  import opened JavaInt
  import opened BookingData

  /** Declared by the dispatcher as the bound on idle drivers, but never consulted. */
  const MAX_DRIVERS: int := 999

  /** A registered region: its name and the most bookings it runs at once. */
  datatype Region = Region(name: string, maxBookings: Int32)

  datatype DispatchState = DispatchState(
    idleDrivers: seq<Driver>,
    bookingCount: Int32,
    regions: map<string, Region>,
    logEvents: bool)

  /** Outcome of `addDriver`: whether the queue accepted the driver, and the new state. */
  datatype Offered = Offered(accepted: bool, state: DispatchState)

  /** Outcome of `getDriver`: the driver handed out and the new state. */
  datatype Acquired = Acquired(driver: Driver, state: DispatchState)

  /** The constructor: one region per entry of `regionInfo`, keyed by the entry's
      name, an empty idle queue and a zero counter. */
  function Create(regionInfo: map<string, Int32>, logEvents: bool): (d: DispatchState)
    ensures d.idleDrivers == [] && d.bookingCount == 0 && d.logEvents == logEvents
    ensures d.regions.Keys == regionInfo.Keys
    ensures forall name :: name in d.regions ==>
              d.regions[name].name == name && d.regions[name].maxBookings == regionInfo[name]
  {
    DispatchState([], 0, map name | name in regionInfo :: Region(name, regionInfo[name]), logEvents)
  }

  /** `addDriver`: the driver joins the tail of the idle queue (which is unbounded,
      so the offer always succeeds); the counter drops by one but not below zero. */
  function AddDriver(d: DispatchState, driver: Driver): (r: Offered)
    ensures r.accepted
    ensures r.state.idleDrivers == d.idleDrivers + [driver]
    ensures 0 < d.bookingCount ==> r.state.bookingCount == d.bookingCount - 1
    ensures INT_MIN < d.bookingCount <= 0 ==> r.state.bookingCount == 0
    ensures d.bookingCount == INT_MIN ==> r.state.bookingCount == INT_MAX
    ensures r.state.regions == d.regions && r.state.logEvents == d.logEvents
  {
    var count := Dec(d.bookingCount);
    Offered(true, d.(idleDrivers := d.idleDrivers + [driver],
                     bookingCount := if count < 0 then 0 else count))
  }

  /** `getDriver` once the queue is non-empty (an empty queue blocks the caller):
      the counter goes up by one and the head of the queue is handed out. */
  function GetDriver(d: DispatchState): (r: Acquired)
    requires |d.idleDrivers| > 0
    ensures d.idleDrivers == [r.driver] + r.state.idleDrivers
    ensures d.bookingCount < INT_MAX ==> r.state.bookingCount == d.bookingCount + 1
    ensures d.bookingCount == INT_MAX ==> r.state.bookingCount == INT_MIN
    ensures r.state.regions == d.regions && r.state.logEvents == d.logEvents
  {
    Acquired(d.idleDrivers[0], d.(idleDrivers := d.idleDrivers[1..], bookingCount := Inc(d.bookingCount)))
  }

  /** `getBookingsAwaitingDriver`: reads the counter without changing anything. */
  function BookingsAwaitingDriver(d: DispatchState): (n: Int32)
    ensures n == d.bookingCount
  {
    d.bookingCount
  }

  /** `decrementBookingCount`: an unclamped decrement, so it can take the counter below zero. */
  function DecrementBookingCount(d: DispatchState): (r: DispatchState)
    ensures INT_MIN < d.bookingCount ==> r.bookingCount == d.bookingCount - 1
    ensures d.bookingCount == INT_MIN ==> r.bookingCount == INT_MAX
    ensures r.idleDrivers == d.idleDrivers && r.regions == d.regions && r.logEvents == d.logEvents
  {
    d.(bookingCount := Dec(d.bookingCount))
  }

  /** `logEvent`: nothing when logging is off, otherwise the line
      `<booking display>: <message>`. */
  function LogEvent(d: DispatchState, b: Booking, message: string): (line: Option<string>)
    ensures line.Some? <==> d.logEvents
    ensures line.Some? ==> line.value == ToString(b) + ": " + message
    ensures line.Some? ==> DisplayedId(line.value) == Some(b.id as int)
  {
    if !d.logEvents then None
    else
      var text := ToString(b) + ": " + message;
      DisplayedIdRoundTrip(b, ": " + message);
      assert text == ToString(b) + (": " + message);
      Some(text)
  }

  /** Every registered region is filed under its own name. */
  predicate RegistryConsistent(d: DispatchState) {
    forall name :: name in d.regions ==> d.regions[name].name == name
  }

  /** The constructor builds a consistent registry and no transition touches it. */
  lemma TransitionsKeepRegistry(regionInfo: map<string, Int32>, logEvents: bool, d: DispatchState, driver: Driver)
    ensures RegistryConsistent(Create(regionInfo, logEvents))
    ensures RegistryConsistent(d) ==> RegistryConsistent(AddDriver(d, driver).state)
    ensures RegistryConsistent(d) && |d.idleDrivers| > 0 ==> RegistryConsistent(GetDriver(d).state)
    ensures RegistryConsistent(d) ==> RegistryConsistent(DecrementBookingCount(d))
  {
  }

  /** The region `bookPassenger` hands the passenger to. The source looks the name up
      and dereferences the result, so an unregistered name is outside its contract. */
  function RegionFor(d: DispatchState, regionName: string): (r: Region)
    requires regionName in d.regions
    ensures r in d.regions.Values
    ensures r == d.regions[regionName]
    ensures RegistryConsistent(d) ==> r.name == regionName
  {
    d.regions[regionName]
  }

  /** Every region the constructor registers is found by `bookPassenger` under its
      own name, with the capacity given for it, and no other name is. */
  lemma RegistryMatchesInput(regionInfo: map<string, Int32>, logEvents: bool, regionName: string)
    ensures regionName in Create(regionInfo, logEvents).regions <==> regionName in regionInfo
    ensures regionName in regionInfo ==>
              RegionFor(Create(regionInfo, logEvents), regionName) == Region(regionName, regionInfo[regionName])
  {
  }

  /** The queue never refuses a driver, however many are idle already. */
  lemma AddDriverIgnoresMaxDrivers(d: DispatchState, driver: Driver)
    requires |d.idleDrivers| >= MAX_DRIVERS
    ensures AddDriver(d, driver).accepted
    ensures |AddDriver(d, driver).state.idleDrivers| > MAX_DRIVERS
  {
  }

  /** FIFO round trip: on an empty pool, adding `d1` then `d2` and taking two drivers
      yields `d1` first, then `d2`, and leaves the pool empty. */
  lemma FifoRoundTrip(d: DispatchState, d1: Driver, d2: Driver)
    requires d.idleDrivers == []
    ensures var s1 := AddDriver(AddDriver(d, d1).state, d2).state;
            && GetDriver(s1).driver == d1
            && GetDriver(GetDriver(s1).state).driver == d2
            && GetDriver(GetDriver(s1).state).state.idleDrivers == []
  {
  }

  /** The unclamped decrement takes a fresh dispatcher's counter to -1. */
  lemma DecrementCanGoNegative(regionInfo: map<string, Int32>, logEvents: bool)
    ensures BookingsAwaitingDriver(DecrementBookingCount(Create(regionInfo, logEvents))) == -1
  {
  }
}
