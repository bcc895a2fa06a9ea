# Nuber dispatch: a sequential model

This project models the sequential core of the Nuber ride-hailing dispatcher
(`NuberDispatch` and `Booking`) in Dafny, and proves properties of it.

- **Dispatcher state** (`Dispatch`): the FIFO queue of idle drivers, the
  "bookings awaiting driver" counter, the region registry built from a
  name→capacity map, and the logging switch, as an immutable record. `addDriver`,
  `getDriver`, `getBookingsAwaitingDriver`, `decrementBookingCount`, the
  constructor, `logEvent` (returning the line instead of printing it) and the
  region lookup of `bookPassenger` are pure transitions on it. A `getDriver`
  that would block on an empty queue is a precondition.
- **Runs** (`DispatchTrace`): sequences of add/get/decrement operations. Drivers
  leave the queue in the order they joined it. The counter stays non-negative
  without the unclamped decrement, while it stays below the `int` maximum. A run completes exactly when no `getDriver`
  meets an empty queue.
- **Bookings** (`BookingData`, `BookingLifecycle`): the display form
  `id : driver : passenger` with `"null"` for absent parts, construction from
  the shared sequential ID counter, and `call()` as a sequential composition.
  That composition takes the head driver, abstracts the pick-up and drive, computes
  the duration from explicit timestamps, returns the same driver to the tail of the
  queue, and builds the result. Booking.java is split over two modules because
  `logEvent` needs the display form while `call()` needs the dispatcher.
- **Java arithmetic** (`JavaInt`, `Decimal`): `int` counters wrap around at 32 bits.
  This is written out explicitly. Integers print in decimal, and that text is proved
  to read back to the same value.

Where the source's own documentation comments and its code differ, the model
follows the code:
- The awaiting-driver counter is documented to go up once a passenger is booked
  (NuberDispatch.java:127) and down once a driver is given to a booking
  (NuberDispatch.java:148). The code instead increments it in `getDriver`
  (NuberDispatch.java:94) and decrements it in `addDriver`, when a driver is
  returned (NuberDispatch.java:71). So a completed booking leaves the counter where
  it was.

`bookPassenger` dereferences the result of the region lookup
(NuberDispatch.java:138), so it requires the region name to be registered.

## Model

| member | source | states |
|---|---|---|
| Dispatch.Create | src/nuber/students/NuberDispatch.java:45-57 | the registry holds exactly the names of `regionInfo`, each region keyed by its own name with the given capacity; the queue starts empty, the counter at zero, the logging flag as given |
| Dispatch.RegistryMatchesInput | src/nuber/students/NuberDispatch.java:49-54 | a name is registered iff it is a key of `regionInfo`, and the region `bookPassenger` delegates to is the one built from that entry |
| Dispatch.TransitionsKeepRegistry | src/nuber/students/NuberDispatch.java:49-54 | the constructor files every region under its own name, and `addDriver`, `getDriver` and `decrementBookingCount` keep that so |
| Dispatch.RegionFor | src/nuber/students/NuberDispatch.java:135-143 | `bookPassenger` delegates to the region registered under that name, which is one of the registry's regions and, in a consistent registry, carries that name; an unregistered name is excluded because the source dereferences the missing entry |
| Dispatch.AddDriver | src/nuber/students/NuberDispatch.java:67-83 | the offer is always accepted; the driver is appended at the tail with every other element in place; the counter becomes count−1 when positive, 0 when it would go negative, and wraps at the `int` minimum |
| Dispatch.AddDriverIgnoresMaxDrivers | src/nuber/students/NuberDispatch.java:27-82 | the unused `MAX_DRIVERS` bound does not limit the queue: a driver is accepted even when 999 or more are idle |
| Dispatch.GetDriver | src/nuber/students/NuberDispatch.java:92-106 | on a non-empty queue, returns the head and removes only it; the counter rises by exactly one (wrapping at the `int` maximum) |
| Dispatch.BookingsAwaitingDriver | src/nuber/students/NuberDispatch.java:152-155 | reports the awaiting-driver counter of the state |
| Dispatch.DecrementBookingCount | src/nuber/students/NuberDispatch.java:156-158 | decrements the counter without a clamp and changes nothing else |
| Dispatch.DecrementCanGoNegative | src/nuber/students/NuberDispatch.java:156-158 | on a freshly built dispatcher the unclamped decrement makes the reported count −1 |
| Dispatch.LogEvent | src/nuber/students/NuberDispatch.java:116-122 | a line exists iff logging is enabled; it is the booking's display, `": "`, then the message, and the booking's ID reads back from its front |
| Dispatch.FifoRoundTrip | src/nuber/students/NuberDispatch.java:67-105 | on an empty pool, adding d1 and d2 and taking two drivers yields d1, then d2, and leaves the pool empty |
| DispatchTrace.Step | src/nuber/students/NuberDispatch.java:92-105 | an operation fails to complete exactly when it is a `getDriver` on an empty queue (the blocking wait) |
| DispatchTrace.RunCompletesIff | src/nuber/students/NuberDispatch.java:96-105 | a run completes iff, counting idle drivers through it, no `getDriver` meets zero |
| DispatchTrace.FifoOrder | src/nuber/students/NuberDispatch.java:69-105 | after any completed run, the drivers handed out followed by those still idle equal the initial queue followed by the added drivers, in order |
| DispatchTrace.RunKeepsRegistry | src/nuber/students/NuberDispatch.java:49-54 | no run of add/get/decrement changes the region registry, so a consistent one stays consistent |
| DispatchTrace.CounterStaysNonNegative | src/nuber/students/NuberDispatch.java:70-94 | with no unclamped decrement, from a non-negative count and without passing the `int` maximum, the counter stays between 0 and its start plus the number of `getDriver` calls |
| DispatchTrace.CounterWrapsAtMaximum | src/nuber/students/NuberDispatch.java:94 | a `getDriver` at the `int` maximum leaves the counter negative, so the previous bound is needed |
| DispatchTrace.FifoScenario | src/nuber/students/NuberDispatch.java:67-105 | from a new dispatcher, add d1, add d2, get, get hands out [d1, d2], empties the pool and leaves the counter at 2 |
| Decimal.IntRoundTrip | src/nuber/students/Booking.java:138 | the decimal text of any ID, as concatenation renders it, reads back to the same integer |
| Decimal.IntToStringInjective | src/nuber/students/Booking.java:138 | two integers render alike iff they are equal |
| BookingData.ToString | src/nuber/students/Booking.java:121-139 | the display begins with the ID's decimal text followed by a space |
| BookingData.DisplayedIdRoundTrip | src/nuber/students/Booking.java:138 | the booking's ID reads back from the front of its display, whatever text follows and whatever the names are |
| BookingData.DisplayDistinguishesIds | src/nuber/students/Booking.java:138 | bookings with different IDs never display alike |
| BookingData.DisplayFieldsRoundTrip | src/nuber/students/Booking.java:126-138 | splitting the display at its two separators gives back the ID, the driver's name or `null`, and the passenger's name or `null` (for a driver name without a colon) |
| BookingData.DisplayAmbiguousWithColons | src/nuber/students/Booking.java:138 | the colon-free driver name is needed: driver "x : y" with passenger "z" displays as driver "x" with passenger "y : z" |
| BookingData.DisplayExamples | src/nuber/students/Booking.java:126-138 | ID 7, no driver, passenger "Alice" renders `7 : null : Alice`; with driver "Bob", `7 : Bob : Alice`; with neither, `7 : null : null` |
| BookingLifecycle.NewBooking | src/nuber/students/Booking.java:42-53 | the ID is the pre-incremented counter (wrapping at the `int` maximum); the booking holds the passenger, no driver and the creation time; the creation line, logged before the passenger is set, is `<id> : null : null: Creating Booking` |
| BookingLifecycle.SequentialIds | src/nuber/students/Booking.java:26-44 | successive constructions get counter+1, counter+2, …; each is one more than the previous, so none repeats |
| BookingLifecycle.TripLog | src/nuber/students/Booking.java:75-99 | `call()` logs four lines when logging is on and none otherwise, each beginning with the booking's own ID |
| BookingLifecycle.Call | src/nuber/students/Booking.java:71-108 | the driver taken from the head of the queue goes back to its tail; a non-negative counter is unchanged; the result carries the booking's ID, passenger, that driver, and duration = completion − creation within the `long` range; the booking records the driver |
| BookingLifecycle.CallIsGetThenAdd | src/nuber/students/Booking.java:76-103 | on the dispatcher, a completed `call()` is exactly the run get-a-driver then add-that-driver-back, so the run invariants cover bookings |
| BookingLifecycle.DisplayAfterCall | src/nuber/students/Booking.java:76-128 | after `call()` the booking's display names the acquired driver and its passenger |
| BookingLifecycle.CallLogLines | src/nuber/students/Booking.java:75-99 | with logging on, the "STARTING" line shows the booking as handed in (driver `null` for a fresh one); the "DRIVER FOUND", "COLLECTED" and "COMPLETED" lines show it with the acquired driver |
| BookingLifecycle.OneDriverServesInTurn | src/nuber/students/Booking.java:71-108 | two bookings run in turn with one idle driver both get it; it ends idle and the counter is back to its start |

## Left out

- Threads: `synchronized`, `wait`/`notifyAll`, and the unsynchronized counter reads are not modelled. The static ID counter's non-atomic increment is also left out. The model is sequential, and a `getDriver` that would block becomes a precondition, or a run that does not complete.
- Interruption: the `InterruptedException` paths of `call()` are not modelled. Neither is the caught exception in `getDriver`, which can hand out null from an empty queue.
- Driver.java is not part of this model. Its pick-up and drive are sleeps with random floating-point delays, so a driver is just a name. The one thing kept from it is that the drive reads the passenger's travel time (src/nuber/students/Driver.java:35). For that reason `BookingLifecycle.Call` requires a passenger.
- The source of Passenger, Person, BookingResult and NuberRegion is not modelled. `BookingData.Passenger`, `BookingData.BookingResult` and `Dispatch.Region` are records of the fields the core passes them. A region is its name and capacity; admission, the executor, `Future` results and `shutdown()` are left out.
- Wall-clock time: timestamps are explicit parameters. They are non-negative milliseconds within the `long` range, which covers instants after 1970.
- Console output: `logEvent` returns the line it would print.
- Null arguments are not modelled, apart from the booking's optional passenger and driver. This covers a null driver offered to the queue (a `NullPointerException`), a null region capacity, and a null name, which would also print as `null`.
- DispatchTrace.Step: a `getDriver` that has to wait has already incremented the counter (NuberDispatch.java:94) before waiting at NuberDispatch.java:96-98. The model drops that increment: a get on an empty queue ends the run with no state. So the interleaving "get waits, another thread adds d, the get resumes" has no matching run. From a count of 0 it ends at 0 in Java and hands out d. The nearest completed run, add d then get, ends at 1.
- BookingLifecycle.Call: the duration is not related to the passenger's travel time, because the drive's timing is abstracted away.
