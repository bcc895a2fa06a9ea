/** The records a booking is made of and its display form (`Booking.toString`).
    Drivers and passengers are opaque values identified by their names. */
module BookingData {
  import opened Wrappers
  import opened JavaInt
  import opened Decimal

  datatype Driver = Driver(name: string)

  datatype Passenger = Passenger(name: string)

  /** A booking: its sequential ID, the passenger (null in Java until the
      constructor assigns it), the driver (null until `call()` obtains one)
      and the creation instant. */
  datatype Booking = Booking(
    id: Int32,
    passenger: Option<Passenger>,
    driver: Option<Driver>,
    created: Millis)

  /** The immutable outcome of a completed booking. */
  datatype BookingResult = BookingResult(
    bookingId: Int32,
    passenger: Option<Passenger>,
    driver: Driver,
    duration: int)

  const NULL_TEXT: string := "null"
  const SEPARATOR: string := " : "

  function DriverName(driver: Option<Driver>): string {
    match driver
    case None => NULL_TEXT
    case Some(d) => d.name
  }

  function PassengerName(passenger: Option<Passenger>): string {
    match passenger
    case None => NULL_TEXT
    case Some(p) => p.name
  }

  /** `id : driverName : passengerName`, with "null" for an absent driver or passenger. */
  function ToString(b: Booking): (s: string)
    ensures |s| >= |IntToString(b.id)| + 2 * |SEPARATOR|
    ensures s[..|IntToString(b.id)|] == IntToString(b.id)
    ensures s[|IntToString(b.id)|] == ' '
  {
    IntToString(b.id) + SEPARATOR + DriverName(b.driver) + SEPARATOR + PassengerName(b.passenger)
  }

  /** The text before the first space (all of `s` when it has none). */
  function UpToSpace(s: string): (r: string)
    ensures |r| <= |s| && r == s[..|r|]
    ensures forall i :: 0 <= i < |r| ==> r[i] != ' '
    ensures |r| < |s| ==> s[|r|] == ' '
  {
    if s == [] || s[0] == ' ' then [] else [s[0]] + UpToSpace(s[1..])
  }

  /** Reads the booking ID back from the front of a display string or log line. */
  function DisplayedId(s: string): Option<int> {
    ParseInt(UpToSpace(s))
  }

  lemma UpToSpaceOfPrefix(s: string, k: nat)
    requires k < |s| && s[k] == ' '
    requires forall i :: 0 <= i < k ==> s[i] != ' '
    ensures UpToSpace(s) == s[..k]
  {
  }

  /** The ID can be read back from any text that begins with a booking's display form,
      whatever the driver's and passenger's names are. */
  lemma DisplayedIdRoundTrip(b: Booking, suffix: string)
    ensures DisplayedId(ToString(b) + suffix) == Some(b.id as int)
  {
    var s := ToString(b) + suffix;
    var k := |IntToString(b.id)|;
    assert s[..k] == IntToString(b.id);
    UpToSpaceOfPrefix(s, k);
    IntRoundTrip(b.id);
  }

  /** Two bookings with different IDs never display alike. */
  lemma DisplayDistinguishesIds(b1: Booking, b2: Booking)
    requires b1.id != b2.id
    ensures ToString(b1) != ToString(b2)
  {
    DisplayedIdRoundTrip(b1, []);
    DisplayedIdRoundTrip(b2, []);
    assert ToString(b1) + [] == ToString(b1);
    assert ToString(b2) + [] == ToString(b2);
  }

  /** Index of the first occurrence of the field separator in `s`. */
  function FindSeparator(s: string): (k: Option<nat>)
    ensures k.Some? ==> k.value + |SEPARATOR| <= |s| && s[k.value..k.value + |SEPARATOR|] == SEPARATOR
    decreases |s|
  {
    if |s| < |SEPARATOR| then None
    else if s[..|SEPARATOR|] == SEPARATOR then Some(0)
    else
      match FindSeparator(s[1..])
      case None => None
      case Some(k) => Some(k + 1)
  }

  /** Splits a display string into its ID, driver text and passenger text: the
      first field up to the first separator, the second up to the next one, and
      the rest. */
  function SplitDisplay(s: string): Option<(int, string, string)> {
    match FindSeparator(s)
    case None => None
    case Some(k) =>
      var rest := s[k + |SEPARATOR|..];
      match FindSeparator(rest)
      case None => None
      case Some(k2) =>
        match ParseInt(s[..k])
        case None => None
        case Some(id) => Some((id, rest[..k2], rest[k2 + |SEPARATOR|..]))
  }

  predicate NoColon(s: string) {
    forall i :: 0 <= i < |s| ==> s[i] != ':'
  }

  lemma {:induction false} FindSeparatorAfter(x: string, y: string)
    requires NoColon(x)
    ensures FindSeparator(x + SEPARATOR + y) == Some(|x|)
    decreases |x|
  {
    var s := x + SEPARATOR + y;
    if x != [] {
      assert s[1] != ':' by {
        if |x| >= 2 { assert s[1] == x[1]; } else { assert s[1] == SEPARATOR[0]; }
      }
      assert s[..|SEPARATOR|] != SEPARATOR by { assert SEPARATOR[1] == ':'; }
      assert s[1..] == x[1..] + SEPARATOR + y;
      FindSeparatorAfter(x[1..], y);
    }
  }

  lemma SplitThreeFields(x: string, y: string, z: string)
    requires NoColon(x) && NoColon(y)
    ensures SplitDisplay(x + SEPARATOR + y + SEPARATOR + z)
              == match ParseInt(x) case None => None case Some(id) => Some((id, y, z))
  {
    var s := x + SEPARATOR + y + SEPARATOR + z;
    assert s == x + SEPARATOR + (y + SEPARATOR + z);
    FindSeparatorAfter(x, y + SEPARATOR + z);
    var rest := s[|x| + |SEPARATOR|..];
    assert rest == y + SEPARATOR + z;
    FindSeparatorAfter(y, z);
    assert rest[..|y|] == y;
    assert rest[|y| + |SEPARATOR|..] == z;
    assert s[..|x|] == x;
  }

  /** The display splits back into the booking's ID, its driver's name (or "null")
      and its passenger's name (or "null"), provided the driver's name has no colon
      in it; the passenger's name may contain anything. */
  lemma DisplayFieldsRoundTrip(b: Booking)
    requires NoColon(DriverName(b.driver))
    ensures SplitDisplay(ToString(b)) == Some((b.id as int, DriverName(b.driver), PassengerName(b.passenger)))
  {
    var idText := IntToString(b.id);
    assert NoColon(idText);
    SplitThreeFields(idText, DriverName(b.driver), PassengerName(b.passenger));
    IntRoundTrip(b.id);
  }

  /** Without the colon-free driver name the split is ambiguous: a driver "x : y" with
      passenger "z" displays exactly as a driver "x" with passenger "y : z". */
  lemma DisplayAmbiguousWithColons(t: Millis)
    ensures ToString(Booking(7, Some(Passenger("z")), Some(Driver("x : y")), t))
              == ToString(Booking(7, Some(Passenger("y : z")), Some(Driver("x")), t))
  {
  }

  /** ID 7 with passenger "Alice", without a driver and with driver "Bob";
      and with neither driver nor passenger. */
  lemma DisplayExamples(t: Millis)
    ensures ToString(Booking(7, Some(Passenger("Alice")), None, t)) == "7 : null : Alice"
    ensures ToString(Booking(7, Some(Passenger("Alice")), Some(Driver("Bob")), t)) == "7 : Bob : Alice"
    ensures ToString(Booking(7, None, None, t)) == "7 : null : null"
  {
  }
}
