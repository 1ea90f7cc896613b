/** The arithmetic of a stay: the charge fixed at check-in from the room's
    type, the balance recorded then, and the total billed at checkout.
    Amounts are exact reals. */
module Billing {
  import opened HotelTypes

  /** Charge for a stay, looked up by room type. A type outside the table is
      charged as a Double. */
  function RoomRate(roomType: string): (rate: real)
    ensures rate == 1000.0 <==> roomType == "Suite"
    ensures rate == 750.0 <==> roomType == "Triple"
    ensures rate == 500.0 <==> roomType != "Suite" && roomType != "Triple"
  {
    if roomType == "Suite" then 1000.0
    else if roomType == "Double" then 500.0
    else if roomType == "Triple" then 750.0
    else 500.0
  }

  /** What checkout uses when a customer record has no room charges. */
  const DefaultRoomCharges := 500.0

  /** What checkout uses when a customer record has no advance. */
  const DefaultAdvance := 0.0

  /** The balance a new customer owes: the room charge less the advance. */
  function BalanceAtCheckIn(roomCharges: real, advance: real): (due: real)
    ensures due + advance == roomCharges
  {
    roomCharges - advance
  }

  /** The total billed at checkout: the room charge plus the additional
      charges, less the advance. */
  function CheckoutTotal(roomCharges: real, additional: real, advance: real): (total: real)
    ensures total + advance == roomCharges + additional
    ensures total == BalanceAtCheckIn(roomCharges, advance) + additional
  {
    roomCharges + additional - advance
  }

  /** A stored amount, or the default when the record lacks it. */
  function StoredOr(field: Option<real>, default: real): real {
    match field
    case Some(v) => v
    case None => default
  }

  /** The bill checkout computes for a customer record. */
  function Bill(c: Customer, additional: real): (b: BillingDetails)
    ensures b.roomCharges == (if c.roomCharges.Some? then c.roomCharges.value else DefaultRoomCharges)
    ensures b.advanceAmount == (if c.advanceAmount.Some? then c.advanceAmount.value else DefaultAdvance)
    ensures b.additionalCharges == additional
    ensures b.totalAmount + b.advanceAmount == b.roomCharges + b.additionalCharges
  {
    var charges := StoredOr(c.roomCharges, DefaultRoomCharges);
    var advance := StoredOr(c.advanceAmount, DefaultAdvance);
    BillingDetails(charges, advance, additional, CheckoutTotal(charges, additional, advance))
  }

  /** For a record written at check-in, the checkout total is the balance
      recorded then plus the additional charges. */
  lemma BillExtendsBalance(c: Customer, additional: real)
    requires c.roomCharges.Some? && c.advanceAmount.Some?
    requires c.totalAmount == BalanceAtCheckIn(c.roomCharges.value, c.advanceAmount.value)
    ensures Bill(c, additional).totalAmount == c.totalAmount + additional
  {
  }
}
