/** The front desk's request handlers as transitions of its three tables.
    Each handler reads and rewrites the tables in a fixed order; a transition
    gives the handler's reply together with the tables it leaves behind. */
module Transitions {
  import opened HotelTypes
  import opened Search
  import opened Billing

  datatype Tables = Tables(rooms: seq<Room>, bookings: seq<Booking>, customers: seq<Customer>)

  /** The invariant the tables keep: record ids are unique in each table
      (fresh ids are generated for every new record) and every stored room
      status is in canonical form. */
  predicate WellFormed(t: Tables) {
    && Distinct(RoomIds(t.rooms))
    && Distinct(BookingIds(t.bookings))
    && Distinct(CustomerIds(t.customers))
    && forall r :: r in t.rooms ==> r.status.Canonical()
  }

  // Room rewrites shared by several handlers.

  /** A status update: the status is always set, the guest only when a
      non-empty name is given, each date only when it is given. */
  function SetStatus(r: Room, status: string, guest: Option<string>, checkIn: Option<Date>, checkOut: Option<Date>): Room {
    r.(status := ParseRoomStatus(status),
       currentGuest := if guest.Some? && guest.value != "" then guest else r.currentGuest,
       checkInDate := if checkIn.Some? then checkIn else r.checkInDate,
       checkOutDate := if checkOut.Some? then checkOut else r.checkOutDate)
  }

  /** The room as check-in leaves it: occupied by the booking's guest for the
      booking's stay. */
  function Occupy(r: Room, b: Booking): Room {
    r.(status := Occupied, currentGuest := Some(b.guestName),
       checkInDate := Some(b.checkInDate), checkOutDate := Some(b.checkOutDate))
  }

  /** The room as checkout and cancellation leave it: available, with no guest
      and no stay window. */
  function Freed(r: Room): Room {
    r.(status := Available, currentGuest := None, checkInDate := None, checkOutDate := None)
  }

  // The handlers.

  /** POST /rooms: a new room is always Available. */
  function CreateRoom(t: Tables, id: string, roomNumber: string, roomType: string): (Room, Tables) {
    var room := Room(id, roomNumber, roomType, Available, None, None, None);
    (room, t.(rooms := t.rooms + [room]))
  }

  /** PUT /rooms/{id}/status: partial update of the first room with that id. */
  function UpdateRoomStatus(t: Tables, roomId: string, status: string, guest: Option<string>,
                            checkIn: Option<Date>, checkOut: Option<Date>): (Reply<()>, Tables)
  {
    match FirstIndex(RoomIds(t.rooms), roomId)
    case None => (Err(NotFound(RoomNotFound)), t)
    case Some(i) =>
      (Ok(()), t.(rooms := t.rooms[i := SetStatus(t.rooms[i], status, guest, checkIn, checkOut)]))
  }

  /** POST /bookings: a new booking is always Upcoming. */
  function CreateBooking(t: Tables, id: string, guestName: string, guestEmail: string, guestPhone: string,
                         roomNumber: string, checkIn: Date, checkOut: Date): (Booking, Tables)
  {
    var booking := Booking(id, guestName, guestEmail, guestPhone, roomNumber, checkIn, checkOut, Upcoming);
    (booking, t.(bookings := t.bookings + [booking]))
  }

  /** POST /customers: stores the record as given. */
  function CreateCustomer(t: Tables, c: Customer): (Customer, Tables) {
    (c, t.(customers := t.customers + [c]))
  }

  /** POST /checkin. */
  function CheckIn(t: Tables, bookingId: string, advance: real, notes: string, customerId: string): (Reply<Customer>, Tables) {
    match FirstIndex(BookingIds(t.bookings), bookingId)
    case None => (Err(NotFound(BookingNotFound)), t)
    case Some(j) =>
      var b := t.bookings[j];
      match FirstIndex(RoomNumbers(t.rooms), b.roomNumber)
      case None => (Err(NotFound(RoomNotFound)), t)
      case Some(i) =>
        var room := t.rooms[i];
        if room.status != Available then (Err(BadRequest(RoomNotAvailable)), t)
        else
          var charges := RoomRate(room.roomType);
          var c := Customer(customerId, b.guestName, b.guestEmail, b.guestPhone, b.roomNumber,
                            b.checkInDate, b.checkOutDate, Some(advance), notes, Some(charges), 0.0,
                            BalanceAtCheckIn(charges, advance));
          (Ok(c), Tables(t.rooms[i := Occupy(room, b)],
                         t.bookings[j := b.(status := CheckedIn)],
                         t.customers + [c]))
  }

  /** The rooms after "free the first room with this number", which does
      nothing when no room has it. */
  function FreeRoom(rooms: seq<Room>, roomNumber: string): seq<Room> {
    match FirstIndex(RoomNumbers(rooms), roomNumber)
    case None => rooms
    case Some(i) => rooms[i := Freed(rooms[i])]
  }

  /** The rooms after "free the first Reserved room with this number", which
      does nothing when no such room exists. */
  function FreeReservedRoom(rooms: seq<Room>, roomNumber: string): seq<Room> {
    match FirstIndex(RoomSlots(rooms), (roomNumber, Reserved))
    case None => rooms
    case Some(i) => rooms[i := Freed(rooms[i])]
  }

  /** POST /checkout: bill the customer, drop the record, free the room. */
  function Checkout(t: Tables, customerId: string, additional: real): (Reply<BillingDetails>, Tables) {
    match FirstIndex(CustomerIds(t.customers), customerId)
    case None => (Err(NotFound(CustomerNotFound)), t)
    case Some(k) =>
      var c := t.customers[k];
      (Ok(Bill(c, additional)),
       t.(rooms := FreeRoom(t.rooms, c.currentRoom),
          customers := t.customers[..k] + t.customers[k + 1..]))
  }

  /** POST /cancel/{id}. A booking that is already Cancelled is not modified
      by the update, which the handler reports as not found. */
  function Cancel(t: Tables, bookingId: string): (Reply<()>, Tables) {
    match FirstIndex(BookingIds(t.bookings), bookingId)
    case None => (Err(NotFound(BookingNotFound)), t)
    case Some(j) =>
      var b := t.bookings[j];
      if b.status == Cancelled then (Err(NotFound(BookingNotFound)), t)
      else
        (Ok(()), t.(rooms := if b.status == Upcoming then FreeReservedRoom(t.rooms, b.roomNumber) else t.rooms,
                    bookings := t.bookings[j := b.(status := Cancelled)]))
  }

  /** The cap on the plain listings of rooms, bookings and customers. */
  const ListLimit: nat := 1000
}
