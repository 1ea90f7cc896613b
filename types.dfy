/** The records the hotel front desk keeps in its three tables: rooms,
    bookings and the customers currently checked in, and the replies its
    request handlers give. */
module HotelTypes {

  datatype Option<+T> = None | Some(value: T)

  /** A calendar day. The front desk only compares days, so a day is its
      ordinal number. */
  type Date = int

  /** The status of a room. The three named states are the ones the handlers
      write; a status update may store any other label, kept in Other. */
  datatype RoomStatus = Available | Occupied | Reserved | Other(name: string)
  {
    function Label(): string {
      match this
      case Available => "Available"
      case Occupied => "Occupied"
      case Reserved => "Reserved"
      case Other(l) => l
    }

    /** Other never carries one of the three named labels, so two statuses
        are equal exactly when their labels are. */
    predicate Canonical() {
      Other? ==> name != "Available" && name != "Occupied" && name != "Reserved"
    }
  }

  /** The status a stored label stands for. */
  function ParseRoomStatus(text: string): (st: RoomStatus)
    ensures st.Label() == text
    ensures st.Canonical()
  {
    if text == "Available" then Available
    else if text == "Occupied" then Occupied
    else if text == "Reserved" then Reserved
    else Other(text)
  }

  lemma LabelParses(st: RoomStatus)
    requires st.Canonical()
    ensures ParseRoomStatus(st.Label()) == st
  {
  }

  /** The life of a booking: Upcoming, then Checked-in; Completed is a
      declared state that no handler writes; Cancelled is set by cancellation. */
  datatype BookingStatus = Upcoming | CheckedIn | Completed | Cancelled
  {
    function Label(): string {
      match this
      case Upcoming => "Upcoming"
      case CheckedIn => "Checked-in"
      case Completed => "Completed"
      case Cancelled => "Cancelled"
    }
  }

  /** A physical room. The guest and the stay window are set while it is
      occupied and cleared when it is freed. */
  datatype Room = Room(
    id: string,
    roomNumber: string,
    roomType: string,
    status: RoomStatus,
    currentGuest: Option<string>,
    checkInDate: Option<Date>,
    checkOutDate: Option<Date>)

  /** A reservation for a room number over a stay window. */
  datatype Booking = Booking(
    id: string,
    guestName: string,
    guestEmail: string,
    guestPhone: string,
    roomNumber: string,
    checkInDate: Date,
    checkOutDate: Date,
    status: BookingStatus)

  /** A guest who is checked in. The two amounts read back at checkout are
      optional: None stands for a stored record that lacks the field. */
  datatype Customer = Customer(
    id: string,
    name: string,
    email: string,
    phone: string,
    currentRoom: string,
    checkInDate: Date,
    checkOutDate: Date,
    advanceAmount: Option<real>,
    notes: string,
    roomCharges: Option<real>,
    additionalCharges: real,
    totalAmount: real)

  /** The figures a checkout hands back to the front desk. */
  datatype BillingDetails = BillingDetails(
    roomCharges: real,
    advanceAmount: real,
    additionalCharges: real,
    totalAmount: real)

  /** The two HTTP errors the handlers raise. */
  datatype HttpError = NotFound(detail: string) | BadRequest(detail: string)
  {
    function Code(): nat {
      if NotFound? then 404 else 400
    }
  }

  const RoomNotFound := "Room not found"
  const BookingNotFound := "Booking not found"
  const CustomerNotFound := "Customer not found"
  const RoomNotAvailable := "Room is not available for check-in"

  /** A handler's answer: its result, or the error it raised. */
  datatype Reply<+T> = Ok(value: T) | Err(error: HttpError)

  // The columns the tables are queried by.

  function RoomIds(rs: seq<Room>): (ks: seq<string>)
    ensures |ks| == |rs| && forall i :: 0 <= i < |rs| ==> ks[i] == rs[i].id
  {
    seq(|rs|, i requires 0 <= i < |rs| => rs[i].id)
  }

  function RoomNumbers(rs: seq<Room>): (ks: seq<string>)
    ensures |ks| == |rs| && forall i :: 0 <= i < |rs| ==> ks[i] == rs[i].roomNumber
  {
    seq(|rs|, i requires 0 <= i < |rs| => rs[i].roomNumber)
  }

  /** Room number and status together, for the query that matches both. */
  function RoomSlots(rs: seq<Room>): (ks: seq<(string, RoomStatus)>)
    ensures |ks| == |rs| && forall i :: 0 <= i < |rs| ==> ks[i] == (rs[i].roomNumber, rs[i].status)
  {
    seq(|rs|, i requires 0 <= i < |rs| => (rs[i].roomNumber, rs[i].status))
  }

  function BookingIds(bs: seq<Booking>): (ks: seq<string>)
    ensures |ks| == |bs| && forall i :: 0 <= i < |bs| ==> ks[i] == bs[i].id
  {
    seq(|bs|, i requires 0 <= i < |bs| => bs[i].id)
  }

  function CustomerIds(cs: seq<Customer>): (ks: seq<string>)
    ensures |ks| == |cs| && forall i :: 0 <= i < |cs| ==> ks[i] == cs[i].id
  {
    seq(|cs|, i requires 0 <= i < |cs| => cs[i].id)
  }

  /** No key occurs twice. */
  predicate Distinct<K(==)>(ks: seq<K>) {
    forall i, j :: 0 <= i < j < |ks| ==> ks[i] != ks[j]
  }
}
