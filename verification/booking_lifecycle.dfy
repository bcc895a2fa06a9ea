/** A booking's life: construction with the next sequential ID, and `call()`
    as the sequence acquire driver, (pick up and drive, abstracted), record
    the duration, release the driver, produce the result. */
module BookingLifecycle {
  import opened Wrappers
  import opened JavaInt
  import opened Decimal
  import opened BookingData
  import opened Dispatch
  import opened DispatchTrace

  const CREATING: string := "Creating Booking"
  const STARTING: string := "STARTING booking, getting driver"
  const DRIVER_FOUND: string := "DRIVER FOUND, on way to passenger"
  const COLLECTED: string := "COLLECTED PASSENGER, on way to destination"
  const COMPLETED: string := "COMPLETED At destination, driver is now free"

  /** Outcome of the constructor: the booking, the shared ID counter after it,
      and the "creating" log line. */
  datatype Created = Created(booking: Booking, counter: Int32, log: Option<string>)

  /** Outcome of a completed `call()`: the dispatcher afterwards, the booking
      with its driver recorded, the result, and the lines logged on the way. */
  datatype Completed = Completed(
    dispatch: DispatchState,
    booking: Booking,
    result: BookingResult,
    log: seq<string>)

  /** The constructor: pre-increments the shared counter and takes the new value
      as the ID, logs the creation while driver and passenger are still unset, then
      records the passenger and the creation time. */
  function NewBooking(counter: Int32, d: DispatchState, passenger: Option<Passenger>, now: Millis)
    : (c: Created)
    ensures c.booking.id == c.counter
    ensures counter < INT_MAX ==> c.counter == counter + 1
    ensures counter == INT_MAX ==> c.counter == INT_MIN
    ensures c.booking.passenger == passenger && c.booking.driver.None? && c.booking.created == now
    ensures c.log.Some? <==> d.logEvents
    ensures c.log.Some? ==> c.log.value == IntToString(c.booking.id) + " : null : null: " + CREATING
  {
    var id := Inc(counter);
    var line := LogEvent(d, Booking(id, None, None, now), CREATING);
    Created(Booking(id, passenger, None, now), id, line)
  }

  /** Constructs one booking per request in order, threading the shared counter. */
  function NewBookings(counter: Int32, d: DispatchState, requests: seq<(Option<Passenger>, Millis)>)
    : (r: (seq<Booking>, Int32))
    ensures |r.0| == |requests|
    decreases |requests|
  {
    if requests == [] then ([], counter)
    else
      var c := NewBooking(counter, d, requests[0].0, requests[0].1);
      var rest := NewBookings(c.counter, d, requests[1..]);
      ([c.booking] + rest.0, rest.1)
  }

  /** In a sequential run the IDs follow the counter one by one, so from a fresh
      counter they are 1, 2, 3, ...; each is one more than the previous and none repeats,
      as long as the counter does not pass the `int` maximum. */
  lemma {:induction false} SequentialIds(counter: Int32, d: DispatchState,
                                         requests: seq<(Option<Passenger>, Millis)>)
    requires counter + |requests| <= INT_MAX
    ensures var r := NewBookings(counter, d, requests);
            && r.1 == counter + |requests|
            && (forall i :: 0 <= i < |r.0| ==> r.0[i].id == counter + i + 1)
            && (forall i, j :: 0 <= i < j < |r.0| ==> r.0[i].id < r.0[j].id)
    decreases |requests|
  {
    if requests != [] {
      var c := NewBooking(counter, d, requests[0].0, requests[0].1);
      SequentialIds(c.counter, d, requests[1..]);
    }
  }

  /** The four events `call()` logs, each rendered through `logEvent`: the first with
      the booking as it was handed in, the rest once the driver has been recorded. */
  function TripLog(d: DispatchState, b: Booking, driver: Driver): (log: seq<string>)
    ensures d.logEvents ==> |log| == 4
    ensures !d.logEvents ==> log == []
    ensures forall i :: 0 <= i < |log| ==> DisplayedId(log[i]) == Some(b.id as int)
  {
    if !d.logEvents then []
    else
      var withDriver := b.(driver := Some(driver));
      [LogEvent(d, b, STARTING).value,
       LogEvent(d, withDriver, DRIVER_FOUND).value,
       LogEvent(d, withDriver, COLLECTED).value,
       LogEvent(d, withDriver, COMPLETED).value]
  }

  /** Completed `call()`. Acquiring the driver needs one idle (otherwise the booking
      waits), and the drive needs a passenger (the driver reads its travel time).
      The booking's own driver is taken from the head of the queue and goes back to
      its tail; the awaiting-driver counter ends where it began unless it was negative,
      in which case the clamp in `addDriver` leaves it at zero. */
  function Call(d: DispatchState, b: Booking, completion: Millis): (o: Completed)
    requires |d.idleDrivers| > 0
    requires b.passenger.Some?
    ensures o.dispatch.idleDrivers == d.idleDrivers[1..] + [d.idleDrivers[0]]
    ensures 0 <= d.bookingCount ==> o.dispatch.bookingCount == d.bookingCount
    ensures d.bookingCount < 0 ==> o.dispatch.bookingCount == 0
    ensures o.dispatch.regions == d.regions && o.dispatch.logEvents == d.logEvents
    ensures o.booking == b.(driver := Some(d.idleDrivers[0]))
    ensures o.result.bookingId == b.id && o.result.passenger == b.passenger
    ensures o.result.driver == d.idleDrivers[0]
    ensures o.result.duration == completion - b.created
    ensures -LONG_MAX <= o.result.duration <= LONG_MAX
    ensures o.log == TripLog(d, b, d.idleDrivers[0])
  {
    var acquired := GetDriver(d);
    var withDriver := b.(driver := Some(acquired.driver));
    var duration := completion - b.created;
    var released := AddDriver(acquired.state, acquired.driver);
    Completed(released.state, withDriver, BookingResult(b.id, b.passenger, acquired.driver, duration),
              TripLog(d, b, acquired.driver))
  }

  /** After `call()` the booking keeps its driver, so its display names that driver. */
  lemma DisplayAfterCall(d: DispatchState, b: Booking, completion: Millis)
    requires |d.idleDrivers| > 0
    requires b.passenger.Some?
    ensures ToString(Call(d, b, completion).booking)
              == IntToString(b.id) + " : " + d.idleDrivers[0].name + " : " + b.passenger.value.name
  {
  }

  /** The log lines of a completed call, when logging is on: the first shows the
      booking as handed in (so "null" for the driver of a fresh booking), the other
      three show it with the acquired driver. */
  lemma CallLogLines(d: DispatchState, b: Booking, completion: Millis)
    requires |d.idleDrivers| > 0
    requires b.passenger.Some?
    requires d.logEvents
    ensures var o := Call(d, b, completion);
            && |o.log| == 4
            && o.log[0] == ToString(b) + ": " + STARTING
            && o.log[1] == ToString(o.booking) + ": " + DRIVER_FOUND
            && o.log[2] == ToString(o.booking) + ": " + COLLECTED
            && o.log[3] == ToString(o.booking) + ": " + COMPLETED
  {
  }

  /** On the dispatcher, a completed `call()` is the run "get a driver, then add that
      driver back", so the run lemmas (FIFO order, counter bounds) cover bookings too. */
  lemma CallIsGetThenAdd(d: DispatchState, b: Booking, completion: Millis, handedOut: seq<Driver>)
    requires |d.idleDrivers| > 0
    requires b.passenger.Some?
    ensures Run(Trace(d, handedOut), [GetOp, AddOp(d.idleDrivers[0])])
              == Some(Trace(Call(d, b, completion).dispatch, handedOut + [d.idleDrivers[0]]))
  {
    var t0 := Trace(d, handedOut);
    var t1 := Step(t0, GetOp).value;
    var t2 := Step(t1, AddOp(d.idleDrivers[0])).value;
    assert Run(t1, [AddOp(d.idleDrivers[0])]) == Run(t2, []);
    assert Run(t0, [GetOp, AddOp(d.idleDrivers[0])]) == Run(t1, [AddOp(d.idleDrivers[0])]);
  }

  /** Two bookings run one after the other with a single idle driver: both get that
      driver, it is idle again at the end, and the counter is back where it started. */
  lemma OneDriverServesInTurn(d: DispatchState, b1: Booking, b2: Booking, t1: Millis, t2: Millis)
    requires |d.idleDrivers| == 1
    requires 0 <= d.bookingCount
    requires b1.passenger.Some? && b2.passenger.Some?
    ensures var o1 := Call(d, b1, t1);
            var o2 := Call(o1.dispatch, b2, t2);
            && o1.result.driver == o2.result.driver == d.idleDrivers[0]
            && o2.dispatch.idleDrivers == d.idleDrivers
            && o2.dispatch.bookingCount == d.bookingCount
  {
  }
}
