/** What each handler does to the tables: its error cases, with the tables
    left as they were, and on success exactly which records change and how.
    Every handler also keeps the tables well formed. */
module HandlerProperties {
  import opened HotelTypes
  import opened Search
  import opened Billing
  import opened Transitions

  /** s' is s with at most the record at position i replaced. */
  predicate SameExcept<T(==)>(s: seq<T>, s': seq<T>, i: nat) {
    |s'| == |s| && i < |s| && forall x :: 0 <= x < |s| && x != i ==> s'[x] == s[x]
  }

  /** r' is the same physical room as r. */
  predicate SameRoom(r: Room, r': Room) {
    r'.id == r.id && r'.roomNumber == r.roomNumber && r'.roomType == r.roomType
  }

  /** A room with no guest and no stay window, ready to let. */
  predicate IsFree(r: Room) {
    r.status == Available && r.currentGuest == None && r.checkInDate == None && r.checkOutDate == None
  }

  // Room creation.

  lemma CreateRoomEffect(t: Tables, id: string, roomNumber: string, roomType: string)
    ensures var (room, t') := CreateRoom(t, id, roomNumber, roomType);
      && room.id == id && room.roomNumber == roomNumber && room.roomType == roomType
      && IsFree(room)
      && t'.rooms == t.rooms + [room]
      && t'.bookings == t.bookings && t'.customers == t.customers
  {
  }

  lemma CreateRoomKeepsWellFormed(t: Tables, id: string, roomNumber: string, roomType: string)
    requires WellFormed(t)
    requires id !in RoomIds(t.rooms)
    ensures WellFormed(CreateRoom(t, id, roomNumber, roomType).1)
  {
    var (room, t') := CreateRoom(t, id, roomNumber, roomType);
    assert RoomIds(t'.rooms) == RoomIds(t.rooms) + [id];
  }

  // Room status update.

  lemma UpdateRoomStatusUnknown(t: Tables, roomId: string, status: string, guest: Option<string>,
                                checkIn: Option<Date>, checkOut: Option<Date>)
    requires roomId !in RoomIds(t.rooms)
    ensures UpdateRoomStatus(t, roomId, status, guest, checkIn, checkOut) == (Err(NotFound(RoomNotFound)), t)
  {
  }

  lemma UpdateRoomStatusEffect(t: Tables, roomId: string, status: string, guest: Option<string>,
                               checkIn: Option<Date>, checkOut: Option<Date>, i: nat)
    requires FirstIndex(RoomIds(t.rooms), roomId) == Some(i)
    ensures var (reply, t') := UpdateRoomStatus(t, roomId, status, guest, checkIn, checkOut);
      && reply == Ok(())
      && SameExcept(t.rooms, t'.rooms, i)
      && var (r, r') := (t.rooms[i], t'.rooms[i]);
      && r.id == roomId && SameRoom(r, r')
      && r'.status.Label() == status
      && r'.currentGuest == (if guest.Some? && guest.value != "" then guest else r.currentGuest)
      && r'.checkInDate == (if checkIn.Some? then checkIn else r.checkInDate)
      && r'.checkOutDate == (if checkOut.Some? then checkOut else r.checkOutDate)
      && t'.bookings == t.bookings && t'.customers == t.customers
  {
  }

  lemma UpdateRoomStatusKeepsWellFormed(t: Tables, roomId: string, status: string, guest: Option<string>,
                                        checkIn: Option<Date>, checkOut: Option<Date>)
    requires WellFormed(t)
    ensures WellFormed(UpdateRoomStatus(t, roomId, status, guest, checkIn, checkOut).1)
  {
    match FirstIndex(RoomIds(t.rooms), roomId)
    case None =>
    case Some(i) =>
      var t' := UpdateRoomStatus(t, roomId, status, guest, checkIn, checkOut).1;
      assert RoomIds(t'.rooms) == RoomIds(t.rooms);
      RoomStatusesCanonical(t.rooms, i, t'.rooms[i]);
  }

  lemma RoomStatusesCanonical(rooms: seq<Room>, i: nat, r: Room)
    requires i < |rooms|
    requires forall x :: x in rooms ==> x.status.Canonical()
    requires r.status.Canonical()
    ensures forall x :: x in rooms[i := r] ==> x.status.Canonical()
  {
    forall x | x in rooms[i := r] ensures x.status.Canonical() {
      var y :| 0 <= y < |rooms| && rooms[i := r][y] == x;
      if y != i { assert rooms[y] in rooms; }
    }
  }

  // Booking creation.

  lemma CreateBookingEffect(t: Tables, id: string, guestName: string, guestEmail: string, guestPhone: string,
                            roomNumber: string, checkIn: Date, checkOut: Date)
    ensures var (b, t') := CreateBooking(t, id, guestName, guestEmail, guestPhone, roomNumber, checkIn, checkOut);
      && b.status == Upcoming
      && b.id == id && b.guestName == guestName && b.guestEmail == guestEmail && b.guestPhone == guestPhone
      && b.roomNumber == roomNumber && b.checkInDate == checkIn && b.checkOutDate == checkOut
      && t'.bookings == t.bookings + [b] && |t'.bookings| == |t.bookings| + 1
      && t'.rooms == t.rooms && t'.customers == t.customers
  {
  }

  lemma CreateBookingKeepsWellFormed(t: Tables, id: string, guestName: string, guestEmail: string, guestPhone: string,
                                     roomNumber: string, checkIn: Date, checkOut: Date)
    requires WellFormed(t)
    requires id !in BookingIds(t.bookings)
    ensures WellFormed(CreateBooking(t, id, guestName, guestEmail, guestPhone, roomNumber, checkIn, checkOut).1)
  {
    var t' := CreateBooking(t, id, guestName, guestEmail, guestPhone, roomNumber, checkIn, checkOut).1;
    assert BookingIds(t'.bookings) == BookingIds(t.bookings) + [id];
  }

  lemma CreateCustomerKeepsWellFormed(t: Tables, c: Customer)
    requires WellFormed(t)
    requires c.id !in CustomerIds(t.customers)
    ensures WellFormed(CreateCustomer(t, c).1)
  {
    var t' := CreateCustomer(t, c).1;
    assert CustomerIds(t'.customers) == CustomerIds(t.customers) + [c.id];
  }

  // Check-in: three ways to be refused, each leaving the tables alone.

  lemma CheckInUnknownBooking(t: Tables, bookingId: string, advance: real, notes: string, customerId: string)
    requires bookingId !in BookingIds(t.bookings)
    ensures CheckIn(t, bookingId, advance, notes, customerId) == (Err(NotFound(BookingNotFound)), t)
  {
  }

  lemma CheckInUnknownRoom(t: Tables, bookingId: string, advance: real, notes: string, customerId: string, j: nat)
    requires FirstIndex(BookingIds(t.bookings), bookingId) == Some(j)
    requires t.bookings[j].roomNumber !in RoomNumbers(t.rooms)
    ensures CheckIn(t, bookingId, advance, notes, customerId) == (Err(NotFound(RoomNotFound)), t)
  {
  }

  lemma CheckInRoomNotAvailable(t: Tables, bookingId: string, advance: real, notes: string, customerId: string,
                                j: nat, i: nat)
    requires FirstIndex(BookingIds(t.bookings), bookingId) == Some(j)
    requires FirstIndex(RoomNumbers(t.rooms), t.bookings[j].roomNumber) == Some(i)
    requires t.rooms[i].status != Available
    ensures CheckIn(t, bookingId, advance, notes, customerId) == (Err(BadRequest(RoomNotAvailable)), t)
    ensures CheckIn(t, bookingId, advance, notes, customerId).0.error.Code() == 400
  {
  }

  /** A successful check-in adds one customer, occupies the room and marks
      the booking; nothing else changes. */
  lemma CheckInEffect(t: Tables, bookingId: string, advance: real, notes: string, customerId: string,
                      j: nat, i: nat)
    requires FirstIndex(BookingIds(t.bookings), bookingId) == Some(j)
    requires FirstIndex(RoomNumbers(t.rooms), t.bookings[j].roomNumber) == Some(i)
    requires t.rooms[i].status == Available
    ensures var (reply, t') := CheckIn(t, bookingId, advance, notes, customerId);
      var (b, room) := (t.bookings[j], t.rooms[i]);
      && reply.Ok?
      && var c := reply.value;
      // the customer record
      && c.id == customerId && c.name == b.guestName && c.email == b.guestEmail && c.phone == b.guestPhone
      && c.currentRoom == b.roomNumber && c.checkInDate == b.checkInDate && c.checkOutDate == b.checkOutDate
      && c.roomCharges == Some(RoomRate(room.roomType))
      && c.advanceAmount == Some(advance) && c.notes == notes
      && c.totalAmount == RoomRate(room.roomType) - advance
      && c.additionalCharges == 0.0
      && t'.customers == t.customers + [c]
      // the room
      && SameExcept(t.rooms, t'.rooms, i) && SameRoom(room, t'.rooms[i])
      && t'.rooms[i].status == Occupied && t'.rooms[i].currentGuest == Some(b.guestName)
      && t'.rooms[i].checkInDate == Some(b.checkInDate) && t'.rooms[i].checkOutDate == Some(b.checkOutDate)
      // the booking
      && SameExcept(t.bookings, t'.bookings, j)
      && t'.bookings[j] == b.(status := CheckedIn)
  {
  }

  lemma CheckInKeepsWellFormed(t: Tables, bookingId: string, advance: real, notes: string, customerId: string)
    requires WellFormed(t)
    requires customerId !in CustomerIds(t.customers)
    ensures WellFormed(CheckIn(t, bookingId, advance, notes, customerId).1)
  {
    var (reply, t') := CheckIn(t, bookingId, advance, notes, customerId);
    if reply.Ok? {
      var j := FirstIndex(BookingIds(t.bookings), bookingId).value;
      var i := FirstIndex(RoomNumbers(t.rooms), t.bookings[j].roomNumber).value;
      assert RoomIds(t'.rooms) == RoomIds(t.rooms);
      assert BookingIds(t'.bookings) == BookingIds(t.bookings);
      assert CustomerIds(t'.customers) == CustomerIds(t.customers) + [customerId];
      RoomStatusesCanonical(t.rooms, i, t'.rooms[i]);
    }
  }

  // Checkout.

  lemma CheckoutUnknown(t: Tables, customerId: string, additional: real)
    requires customerId !in CustomerIds(t.customers)
    ensures Checkout(t, customerId, additional) == (Err(NotFound(CustomerNotFound)), t)
  {
  }

  /** A successful checkout bills the customer, drops exactly that record and
      frees the first room with the customer's room number. */
  lemma CheckoutEffect(t: Tables, customerId: string, additional: real, k: nat)
    requires FirstIndex(CustomerIds(t.customers), customerId) == Some(k)
    ensures var (reply, t') := Checkout(t, customerId, additional);
      var c := t.customers[k];
      && reply.Ok?
      && var bill := reply.value;
      && bill.roomCharges == (if c.roomCharges.Some? then c.roomCharges.value else 500.0)
      && bill.advanceAmount == (if c.advanceAmount.Some? then c.advanceAmount.value else 0.0)
      && bill.additionalCharges == additional
      && bill.totalAmount == bill.roomCharges + additional - bill.advanceAmount
      && |t'.customers| == |t.customers| - 1
      && multiset(t'.customers) == multiset(t.customers) - multiset{c}
      && t'.bookings == t.bookings
      && (c.currentRoom !in RoomNumbers(t.rooms) ==> t'.rooms == t.rooms)
  {
    RemoveAtMultiset(t.customers, k);
  }

  lemma RemoveAtMultiset<T>(s: seq<T>, k: nat)
    requires k < |s|
    ensures |s[..k] + s[k + 1..]| == |s| - 1
    ensures multiset(s[..k] + s[k + 1..]) == multiset(s) - multiset{s[k]}
  {
    assert s == s[..k] + [s[k]] + s[k + 1..];
  }

  /** The room checkout frees. */
  lemma CheckoutFreesRoom(t: Tables, customerId: string, additional: real, k: nat, i: nat)
    requires FirstIndex(CustomerIds(t.customers), customerId) == Some(k)
    requires FirstIndex(RoomNumbers(t.rooms), t.customers[k].currentRoom) == Some(i)
    ensures var t' := Checkout(t, customerId, additional).1;
      && SameExcept(t.rooms, t'.rooms, i) && SameRoom(t.rooms[i], t'.rooms[i])
      && IsFree(t'.rooms[i])
  {
  }

  /** Dropping the record at k from a table with unique ids removes its id. */
  lemma RemoveDropsId(cs: seq<Customer>, k: nat)
    requires k < |cs| && Distinct(CustomerIds(cs))
    ensures CustomerIds(cs[..k] + cs[k + 1..]) == CustomerIds(cs)[..k] + CustomerIds(cs)[k + 1..]
    ensures Distinct(CustomerIds(cs[..k] + cs[k + 1..]))
    ensures cs[k].id !in CustomerIds(cs[..k] + cs[k + 1..])
  {
    var ids := CustomerIds(cs);
    var rest := CustomerIds(cs[..k] + cs[k + 1..]);
    assert rest == ids[..k] + ids[k + 1..];
    forall y | 0 <= y < |rest| ensures rest[y] != ids[k] {
      if y < k { assert rest[y] == ids[y]; } else { assert rest[y] == ids[y + 1]; }
    }
    forall a, b | 0 <= a < b < |rest| ensures rest[a] != rest[b] {
      var a' := if a < k then a else a + 1;
      var b' := if b < k then b else b + 1;
      assert rest[a] == ids[a'] && rest[b] == ids[b'];
    }
  }

  /** After checkout the customer is no longer listed as checked in. */
  lemma CheckoutRemovesCustomer(t: Tables, customerId: string, additional: real)
    requires WellFormed(t)
    ensures customerId !in CustomerIds(Checkout(t, customerId, additional).1.customers)
  {
    match FirstIndex(CustomerIds(t.customers), customerId)
    case None =>
    case Some(k) => RemoveDropsId(t.customers, k);
  }

  lemma FreeRoomKeepsWellFormed(t: Tables, roomNumber: string)
    requires WellFormed(t)
    ensures WellFormed(t.(rooms := FreeRoom(t.rooms, roomNumber)))
    ensures WellFormed(t.(rooms := FreeReservedRoom(t.rooms, roomNumber)))
  {
    match FirstIndex(RoomNumbers(t.rooms), roomNumber)
    case None =>
    case Some(i) =>
      assert RoomIds(FreeRoom(t.rooms, roomNumber)) == RoomIds(t.rooms);
      RoomStatusesCanonical(t.rooms, i, Freed(t.rooms[i]));
    match FirstIndex(RoomSlots(t.rooms), (roomNumber, Reserved))
    case None =>
    case Some(i) =>
      assert RoomIds(FreeReservedRoom(t.rooms, roomNumber)) == RoomIds(t.rooms);
      RoomStatusesCanonical(t.rooms, i, Freed(t.rooms[i]));
  }

  lemma CheckoutKeepsWellFormed(t: Tables, customerId: string, additional: real)
    requires WellFormed(t)
    ensures WellFormed(Checkout(t, customerId, additional).1)
  {
    match FirstIndex(CustomerIds(t.customers), customerId)
    case None =>
    case Some(k) =>
      RemoveDropsId(t.customers, k);
      FreeRoomKeepsWellFormed(t, t.customers[k].currentRoom);
  }

  // Cancellation.

  lemma CancelUnknown(t: Tables, bookingId: string)
    requires bookingId !in BookingIds(t.bookings)
    ensures Cancel(t, bookingId) == (Err(NotFound(BookingNotFound)), t)
  {
  }

  /** Cancelling a cancelled booking modifies nothing and is reported as not found. */
  lemma CancelAlreadyCancelled(t: Tables, bookingId: string, j: nat)
    requires FirstIndex(BookingIds(t.bookings), bookingId) == Some(j)
    requires t.bookings[j].status == Cancelled
    ensures Cancel(t, bookingId) == (Err(NotFound(BookingNotFound)), t)
  {
  }

  /** Any other booking becomes Cancelled; rooms change only when it was Upcoming. */
  lemma CancelEffect(t: Tables, bookingId: string, j: nat)
    requires FirstIndex(BookingIds(t.bookings), bookingId) == Some(j)
    requires t.bookings[j].status != Cancelled
    ensures var (reply, t') := Cancel(t, bookingId);
      && reply == Ok(())
      && SameExcept(t.bookings, t'.bookings, j)
      && t'.bookings[j] == t.bookings[j].(status := Cancelled)
      && t'.customers == t.customers
      && (t.bookings[j].status != Upcoming ==> t'.rooms == t.rooms)
  {
  }

  /** Cancelling an Upcoming booking frees the first Reserved room with its number. */
  lemma CancelFreesReservedRoom(t: Tables, bookingId: string, j: nat, i: nat)
    requires FirstIndex(BookingIds(t.bookings), bookingId) == Some(j)
    requires t.bookings[j].status == Upcoming
    requires FirstIndex(RoomSlots(t.rooms), (t.bookings[j].roomNumber, Reserved)) == Some(i)
    ensures var t' := Cancel(t, bookingId).1;
      && t.rooms[i].roomNumber == t.bookings[j].roomNumber && t.rooms[i].status == Reserved
      && SameExcept(t.rooms, t'.rooms, i) && SameRoom(t.rooms[i], t'.rooms[i])
      && IsFree(t'.rooms[i])
  {
  }

  /** When no room with the booking's number is Reserved, cancelling leaves
      every room as it was. */
  lemma CancelSkipsUnreservedRooms(t: Tables, bookingId: string, j: nat)
    requires FirstIndex(BookingIds(t.bookings), bookingId) == Some(j)
    requires forall r :: r in t.rooms && r.roomNumber == t.bookings[j].roomNumber ==> r.status != Reserved
    ensures Cancel(t, bookingId).1.rooms == t.rooms
  {
    var key := (t.bookings[j].roomNumber, Reserved);
    var slots := RoomSlots(t.rooms);
    forall y | 0 <= y < |slots| ensures slots[y] != key {
      assert t.rooms[y] in t.rooms;
    }
  }

  lemma CancelKeepsWellFormed(t: Tables, bookingId: string)
    requires WellFormed(t)
    ensures WellFormed(Cancel(t, bookingId).1)
  {
    match FirstIndex(BookingIds(t.bookings), bookingId)
    case None =>
    case Some(j) =>
      var t' := Cancel(t, bookingId).1;
      assert BookingIds(t'.bookings) == BookingIds(t.bookings);
      FreeRoomKeepsWellFormed(t, t.bookings[j].roomNumber);
  }
}
