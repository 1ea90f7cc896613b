/** Properties of sequences of handler calls: a stay from check-in to
    checkout, a second check-in into an occupied room, and cancellation after
    check-in or twice over. */
module Lifecycle {
  import opened HotelTypes
  import opened Search
  import opened Billing
  import opened Transitions
  import opened HandlerProperties

  /** Rewriting a room without changing its number keeps the room-number
      column, so every later query by number finds the same room. */
  lemma RoomNumbersKept(rooms: seq<Room>, i: nat, r: Room)
    requires i < |rooms| && r.roomNumber == rooms[i].roomNumber
    ensures RoomNumbers(rooms[i := r]) == RoomNumbers(rooms)
  {
  }

  /** Once a check-in has succeeded, any check-in of a booking for the same
      room number, the same booking included, is refused with 400 and changes
      nothing. */
  lemma {:induction false} SecondCheckInRefused(t: Tables, bookingId: string, advance: real, notes: string,
                                               customerId: string, otherId: string, advance': real,
                                               notes': string, customerId': string)
    requires CheckIn(t, bookingId, advance, notes, customerId).0.Ok?
    requires var (reply, t') := CheckIn(t, bookingId, advance, notes, customerId);
      && otherId in BookingIds(t'.bookings)
      && t'.bookings[FirstIndex(BookingIds(t'.bookings), otherId).value].roomNumber == reply.value.currentRoom
    ensures var t' := CheckIn(t, bookingId, advance, notes, customerId).1;
      CheckIn(t', otherId, advance', notes', customerId') == (Err(BadRequest(RoomNotAvailable)), t')
  {
    var j := FirstIndex(BookingIds(t.bookings), bookingId).value;
    var b := t.bookings[j];
    var i := FirstIndex(RoomNumbers(t.rooms), b.roomNumber).value;
    var t' := CheckIn(t, bookingId, advance, notes, customerId).1;
    RoomNumbersKept(t.rooms, i, Occupy(t.rooms[i], b));
    assert t'.rooms == t.rooms[i := Occupy(t.rooms[i], b)];
    var j' := FirstIndex(BookingIds(t'.bookings), otherId).value;
    assert FirstIndex(RoomNumbers(t'.rooms), t'.bookings[j'].roomNumber) == Some(i);
    assert t'.rooms[i].status == Occupied;
  }

  /** The record check-in appends is the one a checkout for its id finds,
      and dropping it gives back the earlier table. */
  lemma AppendedIsFound(cs: seq<Customer>, c: Customer)
    requires c.id !in CustomerIds(cs)
    ensures FirstIndex(CustomerIds(cs + [c]), c.id) == Some(|cs|)
    ensures (cs + [c])[..|cs|] + (cs + [c])[|cs| + 1..] == cs
  {
    var k := |cs|;
    assert CustomerIds(cs + [c]) == CustomerIds(cs) + [c.id];
    assert CustomerIds(cs + [c])[..k] == CustomerIds(cs);
    FirstIndexIsFirst(CustomerIds(cs + [c]), c.id, k);
  }

  /** A stay from check-in to checkout: the bill carries the charge fixed at
      check-in, its total is the balance recorded then plus the additional
      charges, the customer table is back to what it was, the room is freed,
      and the booking stays Checked-in. */
  lemma {:induction false} StayRoundTrip(t: Tables, bookingId: string, advance: real, notes: string,
                                        customerId: string, additional: real, j: nat, i: nat)
    requires customerId !in CustomerIds(t.customers)
    requires FirstIndex(BookingIds(t.bookings), bookingId) == Some(j)
    requires FirstIndex(RoomNumbers(t.rooms), t.bookings[j].roomNumber) == Some(i)
    requires t.rooms[i].status == Available
    ensures var (r1, t1) := CheckIn(t, bookingId, advance, notes, customerId);
      var (r2, t2) := Checkout(t1, customerId, additional);
      && r1.Ok? && r2.Ok?
      && r2.value.roomCharges == RoomRate(t.rooms[i].roomType)
      && r2.value.advanceAmount == advance
      && r2.value.totalAmount == r1.value.totalAmount + additional
      && t2.customers == t.customers
      && t2.bookings == t1.bookings && t2.bookings[j].status == CheckedIn
      && SameExcept(t.rooms, t2.rooms, i) && SameRoom(t.rooms[i], t2.rooms[i]) && IsFree(t2.rooms[i])
      && (IsFree(t.rooms[i]) ==> t2.rooms == t.rooms)
  {
    var b := t.bookings[j];
    var room := t.rooms[i];
    var (r1, t1) := CheckIn(t, bookingId, advance, notes, customerId);
    var c := r1.value;
    assert t1.customers == t.customers + [c];
    AppendedIsFound(t.customers, c);
    RoomNumbersKept(t.rooms, i, Occupy(room, b));
    assert t1.rooms == t.rooms[i := Occupy(room, b)];
    var t2 := Checkout(t1, customerId, additional).1;
    assert t2.rooms == t.rooms[i := Freed(room)];
    BillExtendsBalance(c, additional);
  }

  /** Cancelling a booking that is already Checked-in is accepted and leaves
      the room occupied: nothing restricts cancellation to Upcoming bookings. */
  lemma {:induction false} CancelAfterCheckIn(t: Tables, bookingId: string, advance: real, notes: string,
                                             customerId: string, j: nat)
    requires FirstIndex(BookingIds(t.bookings), bookingId) == Some(j)
    requires CheckIn(t, bookingId, advance, notes, customerId).0.Ok?
    ensures var t1 := CheckIn(t, bookingId, advance, notes, customerId).1;
      var (r2, t2) := Cancel(t1, bookingId);
      && r2 == Ok(())
      && t2.rooms == t1.rooms && t2.customers == t1.customers
      && t2.bookings[j].status == Cancelled
  {
    var t1 := CheckIn(t, bookingId, advance, notes, customerId).1;
    assert BookingIds(t1.bookings) == BookingIds(t.bookings);
    assert t1.bookings[j].status == CheckedIn;
  }

  /** A second cancellation of the same booking is refused and changes nothing. */
  lemma {:induction false} CancelTwice(t: Tables, bookingId: string)
    requires Cancel(t, bookingId).0.Ok?
    ensures var t1 := Cancel(t, bookingId).1;
      Cancel(t1, bookingId) == (Err(NotFound(BookingNotFound)), t1)
  {
    var j := FirstIndex(BookingIds(t.bookings), bookingId).value;
    var t1 := Cancel(t, bookingId).1;
    assert BookingIds(t1.bookings) == BookingIds(t.bookings);
    assert t1.bookings[j].status == Cancelled;
  }

  /** A worked stay in a Double room: the charge comes from the room type,
      whatever the guest was quoted, so an advance larger than the charge
      leaves a negative total. */
  lemma DoubleRoomStay()
    ensures
      var t := Tables([Room("r1", "103", "Double", Available, None, None, None)],
                      [Booking("b1", "Ann", "ann@example.com", "555", "103", 10, 12, Upcoming)],
                      []);
      var (r1, t1) := CheckIn(t, "b1", 1000.0, "", "c1");
      var (r2, t2) := Checkout(t1, "c1", 200.0);
      && r1.Ok? && r1.value.roomCharges == Some(500.0) && r1.value.totalAmount == -500.0
      && r2 == Ok(BillingDetails(500.0, 1000.0, 200.0, -300.0))
      && t2.customers == [] && t2.rooms == t.rooms
      && t2.bookings == [t.bookings[0].(status := CheckedIn)]
  {
    var t := Tables([Room("r1", "103", "Double", Available, None, None, None)],
                    [Booking("b1", "Ann", "ann@example.com", "555", "103", 10, 12, Upcoming)],
                    []);
    assert BookingIds(t.bookings) == ["b1"];
    assert RoomNumbers(t.rooms) == ["103"];
    var t1 := CheckIn(t, "b1", 1000.0, "", "c1").1;
    assert CustomerIds(t1.customers) == ["c1"];
    assert RoomNumbers(t1.rooms) == ["103"];
  }
}
