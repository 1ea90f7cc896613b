/** The front desk as an object holding the three tables. Each request
    handler is a method that queries and rewrites the tables step by step, in
    the order the handler does; its contract ties the reply and the new
    tables to the transition of the same name. */
module Service {
  import opened HotelTypes
  import opened Search
  import opened Billing
  import opened Upcoming
  import opened Transitions
  import HandlerProperties

  class FrontDesk {
    var rooms: seq<Room>
    var bookings: seq<Booking>
    var customers: seq<Customer>

    ghost function State(): Tables
      reads this
    {
      Tables(rooms, bookings, customers)
    }

    ghost predicate Valid()
      reads this
    {
      WellFormed(State())
    }

    constructor ()
      ensures Valid() && State() == Tables([], [], [])
    {
      rooms, bookings, customers := [], [], [];
    }

    /** GET /rooms. */
    method ListRooms() returns (r: seq<Room>)
      ensures |r| <= ListLimit && |r| <= |rooms| && r == rooms[..|r|]
      ensures |rooms| <= ListLimit ==> r == rooms
      ensures |rooms| > ListLimit ==> |r| == ListLimit
    {
      r := Cap(rooms, ListLimit);
    }

    /** GET /bookings. */
    method ListBookings() returns (r: seq<Booking>)
      ensures |r| <= ListLimit && |r| <= |bookings| && r == bookings[..|r|]
      ensures |bookings| <= ListLimit ==> r == bookings
      ensures |bookings| > ListLimit ==> |r| == ListLimit
    {
      r := Cap(bookings, ListLimit);
    }

    /** GET /customers/checked-in. */
    method ListCheckedIn() returns (r: seq<Customer>)
      ensures |r| <= ListLimit && |r| <= |customers| && r == customers[..|r|]
      ensures |customers| <= ListLimit ==> r == customers
      ensures |customers| > ListLimit ==> |r| == ListLimit
    {
      r := Cap(customers, ListLimit);
    }

    /** POST /rooms. */
    method CreateRoom(id: string, roomNumber: string, roomType: string) returns (room: Room)
      requires Valid() && id !in RoomIds(rooms)
      modifies this
      ensures Valid()
      ensures (room, State()) == Transitions.CreateRoom(old(State()), id, roomNumber, roomType)
    {
      HandlerProperties.CreateRoomKeepsWellFormed(State(), id, roomNumber, roomType);
      room := Room(id, roomNumber, roomType, Available, None, None, None);
      rooms := rooms + [room];
    }

    /** PUT /rooms/{id}/status. */
    method UpdateRoomStatus(roomId: string, status: string, guest: Option<string>,
                            checkIn: Option<Date>, checkOut: Option<Date>) returns (reply: Reply<()>)
      requires Valid()
      modifies this
      ensures Valid()
      ensures (reply, State()) == Transitions.UpdateRoomStatus(old(State()), roomId, status, guest, checkIn, checkOut)
    {
      HandlerProperties.UpdateRoomStatusKeepsWellFormed(State(), roomId, status, guest, checkIn, checkOut);
      var found := Find(RoomIds(rooms), roomId);
      if found.None? {
        return Err(NotFound(RoomNotFound));
      }
      var room := rooms[found.value].(status := ParseRoomStatus(status));
      if guest.Some? && guest.value != "" {
        room := room.(currentGuest := guest);
      }
      if checkIn.Some? {
        room := room.(checkInDate := checkIn);
      }
      if checkOut.Some? {
        room := room.(checkOutDate := checkOut);
      }
      rooms := rooms[found.value := room];
      reply := Ok(());
    }

    /** GET /bookings/upcoming, with today's date passed in. */
    method UpcomingBookings(today: Date) returns (r: seq<Booking>)
      ensures r == UpcomingOf(bookings, today)
      ensures SortedByCheckIn(r) && |r| <= UpcomingLimit
      ensures forall b :: b in r ==> b in bookings && IsDue(b, today)
    {
      var due: seq<Booking> := [];
      var i := 0;
      while i < |bookings|
        invariant 0 <= i <= |bookings|
        invariant due == Due(bookings[..i], today)
      {
        assert bookings[..i + 1][..i] == bookings[..i];
        if IsDue(bookings[i], today) {
          due := due + [bookings[i]];
        }
        i := i + 1;
      }
      assert bookings[..i] == bookings;
      r := Cap(SortByCheckIn(due), UpcomingLimit);
      UpcomingAreDue(bookings, today);
      UpcomingShape(bookings, today);
    }

    /** POST /bookings. */
    method CreateBooking(id: string, guestName: string, guestEmail: string, guestPhone: string,
                         roomNumber: string, checkIn: Date, checkOut: Date) returns (booking: Booking)
      requires Valid() && id !in BookingIds(bookings)
      modifies this
      ensures Valid()
      ensures (booking, State()) ==
        Transitions.CreateBooking(old(State()), id, guestName, guestEmail, guestPhone, roomNumber, checkIn, checkOut)
    {
      HandlerProperties.CreateBookingKeepsWellFormed(State(), id, guestName, guestEmail, guestPhone,
                                                     roomNumber, checkIn, checkOut);
      booking := Booking(id, guestName, guestEmail, guestPhone, roomNumber, checkIn, checkOut, Upcoming);
      bookings := bookings + [booking];
    }

    /** POST /customers. */
    method CreateCustomer(c: Customer) returns (stored: Customer)
      requires Valid() && c.id !in CustomerIds(customers)
      modifies this
      ensures Valid()
      ensures (stored, State()) == Transitions.CreateCustomer(old(State()), c)
    {
      HandlerProperties.CreateCustomerKeepsWellFormed(State(), c);
      customers := customers + [c];
      stored := c;
    }

    /** POST /checkout. */
    method Checkout(customerId: string, additional: real) returns (reply: Reply<BillingDetails>)
      requires Valid()
      modifies this
      ensures Valid()
      ensures (reply, State()) == Transitions.Checkout(old(State()), customerId, additional)
    {
      HandlerProperties.CheckoutKeepsWellFormed(State(), customerId, additional);
      var found := Find(CustomerIds(customers), customerId);
      if found.None? {
        return Err(NotFound(CustomerNotFound));
      }
      var k := found.value;
      var customer := customers[k];
      var charges := StoredOr(customer.roomCharges, DefaultRoomCharges);
      var advance := StoredOr(customer.advanceAmount, DefaultAdvance);
      var total := CheckoutTotal(charges, additional, advance);
      // The final figures are written to the record ...
      ghost var before := customers;
      customers := customers[k := customer.(additionalCharges := additional, totalAmount := total)];
      // ... which the delete, matching the same id at the same place, then removes.
      assert customers[..k] == before[..k] && customers[k + 1..] == before[k + 1..];
      customers := customers[..k] + customers[k + 1..];
      var target := Find(RoomNumbers(rooms), customer.currentRoom);
      if target.Some? {
        rooms := rooms[target.value := Freed(rooms[target.value])];
      }
      reply := Ok(BillingDetails(charges, advance, additional, total));
    }

    /** POST /checkin. */
    method CheckIn(bookingId: string, advance: real, notes: string, customerId: string) returns (reply: Reply<Customer>)
      requires Valid() && customerId !in CustomerIds(customers)
      modifies this
      ensures Valid()
      ensures (reply, State()) == Transitions.CheckIn(old(State()), bookingId, advance, notes, customerId)
    {
      HandlerProperties.CheckInKeepsWellFormed(State(), bookingId, advance, notes, customerId);
      var found := Find(BookingIds(bookings), bookingId);
      if found.None? {
        return Err(NotFound(BookingNotFound));
      }
      var booking := bookings[found.value];
      var located := Find(RoomNumbers(rooms), booking.roomNumber);
      if located.None? {
        return Err(NotFound(RoomNotFound));
      }
      var room := rooms[located.value];
      if room.status != Available {
        return Err(BadRequest(RoomNotAvailable));
      }
      var charges := RoomRate(room.roomType);
      var customer := Customer(customerId, booking.guestName, booking.guestEmail, booking.guestPhone,
                               booking.roomNumber, booking.checkInDate, booking.checkOutDate,
                               Some(advance), notes, Some(charges), 0.0, BalanceAtCheckIn(charges, advance));
      customers := customers + [customer];
      var target := Find(RoomNumbers(rooms), booking.roomNumber);
      if target.Some? {
        rooms := rooms[target.value := Occupy(rooms[target.value], booking)];
      }
      var entry := Find(BookingIds(bookings), bookingId);
      if entry.Some? {
        bookings := bookings[entry.value := bookings[entry.value].(status := CheckedIn)];
      }
      reply := Ok(customer);
    }

    /** POST /cancel/{id}. */
    method Cancel(bookingId: string) returns (reply: Reply<()>)
      requires Valid()
      modifies this
      ensures Valid()
      ensures (reply, State()) == Transitions.Cancel(old(State()), bookingId)
    {
      HandlerProperties.CancelKeepsWellFormed(State(), bookingId);
      var found := Find(BookingIds(bookings), bookingId);
      if found.None? {
        return Err(NotFound(BookingNotFound));
      }
      var booking := bookings[found.value];
      // Setting Cancelled on a Cancelled booking modifies nothing, which is reported as not found.
      if booking.status == Cancelled {
        return Err(NotFound(BookingNotFound));
      }
      bookings := bookings[found.value := booking.(status := Cancelled)];
      if booking.status == Upcoming {
        var target := Find(RoomSlots(rooms), (booking.roomNumber, Reserved));
        if target.Some? {
          rooms := rooms[target.value := Freed(rooms[target.value])];
        }
      }
      reply := Ok(());
    }
  }
}
