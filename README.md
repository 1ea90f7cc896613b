# Hotel front desk: a verified model

This project models the front desk of a hotel management backend
(`backend/server.py`). It keeps three tables: rooms, bookings, and the
customers currently checked in. The request handlers read and rewrite these
tables in a fixed order:

- room creation and room status updates;
- booking creation and the upcoming-bookings listing;
- check-in, which prices the stay from the room type, adds a customer,
  occupies the room and marks the booking Checked-in;
- checkout, which bills the customer, drops the customer record and frees the
  room;
- cancellation, which marks the booking Cancelled and, for an Upcoming
  booking, frees a Reserved room with the same number.

The project is laid out like this:

- `types.dfy` (`HotelTypes`): the records (`Room`, `Booking`, `Customer`), the
  statuses, the replies and errors (404 `NotFound`, 400 `BadRequest`, with the
  handlers' detail messages), and the key columns the tables are queried by.
- `search.dfy` (`Search`): how the document store answers a query. A
  single-record query (`find_one`, `update_one`, `delete_one`) acts on the
  first record whose key matches. A listing returns at most a fixed number of
  records.
- `billing.dfy` (`Billing`): the room-type rate table, the balance recorded
  at check-in, and the checkout bill with its defaults for missing fields.
- `upcoming.dfy` (`Upcoming`): the upcoming listing. It keeps bookings that
  are Upcoming and start today or later, sorts them by check-in day and caps
  the result at 10.
- `transitions.dfy` (`Transitions`): each handler as a pure function from
  the tables to the reply and the new tables. These functions are the
  definitions. Their properties are the lemmas below.
- `properties.dfy` (`HandlerProperties`): per handler, each error case
  (reply, and tables unchanged) and the success case, saying exactly which
  records change and how. It also proves that every handler keeps the tables
  `WellFormed`: ids are unique in each table and room statuses are canonical.
- `lifecycle.dfy` (`Lifecycle`): properties of call sequences. These cover
  check-in followed by checkout, a second check-in, cancelling after
  check-in, cancelling twice, and one worked stay.
- `service.dfy` (`Service.FrontDesk`): the front desk as a class holding the
  three tables as `seq` fields. Each handler is a method. It runs its queries
  with the `Find` loop and rewrites the fields in the handler's order. Its
  `ensures` equates the reply and the new tables with the transition of the
  same name.

Conventions:

- Dates are day numbers.
- "Today" is a parameter of the upcoming listing.
- Fresh record ids are parameters. Their uniqueness, which the source gets
  from `uuid4`, is a precondition of the creating methods.
- Amounts are exact reals.
- A room status that is not one of the three named ones is kept as
  `Other(name)`, because the status update accepts any string.
- In a customer record, `roomCharges` and `advanceAmount` are optional. This
  models checkout's `.get(..., default)` on a stored record that lacks the
  field.

Where the code and the design description of the system disagree, the model
follows the code:

- Check-in charges the room from the room-type table (Suite 1000, Triple 750,
  Double and any other type 500). It does not copy a quoted booking amount;
  this version of the booking record has no such field.
- The checkout total is `room charges + additional − advance`. There is no
  discount, no payment method and no daily-sale record.
- Checkout does not move the booking to Completed. `StayRoundTrip` proves
  that the booking stays Checked-in.
- Cancellation accepts any booking that is not already Cancelled: see
  `CancelAfterCheckIn`. Check-in does not look at the booking's status at
  all: `CheckInEffect` needs only the booking, the room and its availability.
- Booking creation copies the check-out day as given. There is no same-day
  special case for a stay type.

## Model

| member | source | states |
|---|---|---|
| `HotelTypes.ParseRoomStatus` | backend/server.py:107-109 | the stored status is the given string (its label is the input) and is canonical |
| `HotelTypes.LabelParses` | backend/server.py:33 | a canonical status is recovered from its label, so label and status determine each other |
| `Search.FirstIndex` | backend/server.py:217-222 | a single-record query finds no record exactly when no key matches, otherwise the first matching position |
| `Search.FirstIndexIsFirst` | backend/server.py:217-222 | a match with no earlier match is the record a single-record query acts on |
| `Search.Find` | backend/server.py:217 | the scanning query loop returns what `FirstIndex` specifies |
| `Search.Cap` | backend/server.py:134 | a listing with a cap of n returns the first min(n, size) records in order |
| `Billing.RoomRate` | backend/server.py:229-234 | the charge is 1000 exactly for Suite, 750 exactly for Triple, and 500 for every other type |
| `Billing.BalanceAtCheckIn` | backend/server.py:247 | the recorded balance plus the advance equals the room charge |
| `Billing.CheckoutTotal` | backend/server.py:182 | total plus advance equals room charge plus additional; it is the check-in balance plus the additional charges |
| `Billing.Bill` | backend/server.py:178-182 | the bill uses the stored room charge or 500 when absent and the stored advance or 0 when absent; total = charge + additional − advance |
| `Billing.BillExtendsBalance` | backend/server.py:246-247 | for a record written at check-in, the checkout total is the recorded balance plus the additional charges |
| `Upcoming.Due` | backend/server.py:131-133 | the filter keeps each booking as often as it occurs when it is Upcoming and starts today or later, else drops it |
| `Upcoming.Insert` | backend/server.py:134 | inserting into a sorted listing keeps it sorted and adds exactly that booking |
| `Upcoming.SortByCheckIn` | backend/server.py:134 | the result is sorted ascending by check-in day and is a permutation of the input |
| `Upcoming.UpcomingAreDue` | backend/server.py:128-134 | every listed booking is in the table, Upcoming, and starts today or later |
| `Upcoming.UpcomingShape` | backend/server.py:134 | the listing is sorted, holds at most 10 bookings, holds all due bookings when there are at most 10, and exactly 10 otherwise |
| `Upcoming.UpcomingAreEarliest` | backend/server.py:134 | the listing is a sub-multiset of the due bookings, and every due booking left out starts no earlier than any listed one |
| `HandlerProperties.CreateRoomEffect` | backend/server.py:100-105 | the new room has the given id, number and type, is Available with no guest or dates, and is appended; other tables unchanged |
| `HandlerProperties.CreateRoomKeepsWellFormed` | backend/server.py:100-105 | creating a room with a fresh id keeps the tables well formed |
| `HandlerProperties.UpdateRoomStatusUnknown` | backend/server.py:117-119 | an unknown room id gives 404 "Room not found" and changes nothing |
| `HandlerProperties.UpdateRoomStatusEffect` | backend/server.py:108-117 | only the first room with the id changes: status always set; guest only if a non-empty name is given; each date only if given; identity and other tables unchanged |
| `HandlerProperties.UpdateRoomStatusKeepsWellFormed` | backend/server.py:107-120 | a status update keeps the tables well formed |
| `HandlerProperties.CreateBookingEffect` | backend/server.py:145-150 | the new booking is Upcoming with every given field copied, and the booking table grows by exactly that booking |
| `HandlerProperties.CreateBookingKeepsWellFormed` | backend/server.py:145-150 | creating a booking with a fresh id keeps the tables well formed |
| `HandlerProperties.CreateCustomerKeepsWellFormed` | backend/server.py:166-169 | storing a customer with a fresh id keeps the tables well formed |
| `HandlerProperties.CheckInUnknownBooking` | backend/server.py:217-219 | a missing booking gives 404 "Booking not found" and changes nothing |
| `HandlerProperties.CheckInUnknownRoom` | backend/server.py:222-224 | a booking whose room number matches no room gives 404 "Room not found" and changes nothing |
| `HandlerProperties.CheckInRoomNotAvailable` | backend/server.py:226-227 | a room that is not Available gives 400 "Room is not available for check-in" and changes nothing |
| `HandlerProperties.CheckInEffect` | backend/server.py:229-273 | on success the customer copies the guest, room and dates, is charged RoomRate(type) with total = charge − advance, and is appended; only that room changes (Occupied, guest, dates); only that booking changes (Checked-in) |
| `HandlerProperties.CheckInKeepsWellFormed` | backend/server.py:237-271 | check-in with a fresh customer id keeps the tables well formed |
| `HandlerProperties.CheckoutUnknown` | backend/server.py:174-176 | an unknown customer gives 404 "Customer not found" and changes nothing |
| `HandlerProperties.CheckoutEffect` | backend/server.py:178-212 | on success the bill uses the stored or default charge and advance, total = charge + additional − advance; exactly that customer record is removed; bookings unchanged; rooms unchanged when no room has the number |
| `HandlerProperties.CheckoutFreesRoom` | backend/server.py:199-202 | only the first room with the customer's room number changes, and it becomes Available with no guest or dates |
| `HandlerProperties.RemoveDropsId` | backend/server.py:194 | deleting a record from a table with unique ids keeps the ids unique and removes that id |
| `HandlerProperties.CheckoutRemovesCustomer` | backend/server.py:193-196 | after checkout the customer id is no longer in the checked-in table |
| `HandlerProperties.FreeRoomKeepsWellFormed` | backend/server.py:199-202 | freeing a room, by number or by number and Reserved status, keeps the tables well formed |
| `HandlerProperties.CheckoutKeepsWellFormed` | backend/server.py:171-212 | checkout keeps the tables well formed |
| `HandlerProperties.CancelUnknown` | backend/server.py:278-280 | a missing booking gives 404 "Booking not found" and changes nothing |
| `HandlerProperties.CancelAlreadyCancelled` | backend/server.py:283-289 | cancelling a Cancelled booking modifies nothing and gives 404 "Booking not found" |
| `HandlerProperties.CancelEffect` | backend/server.py:283-296 | any other booking becomes Cancelled and no other booking changes; customers unchanged; rooms unchanged unless the booking was Upcoming |
| `HandlerProperties.CancelFreesReservedRoom` | backend/server.py:292-296 | for an Upcoming booking only the first Reserved room with its number changes, becoming Available with no guest or dates |
| `HandlerProperties.CancelSkipsUnreservedRooms` | backend/server.py:292-296 | when no room with the number is Reserved, no room changes |
| `HandlerProperties.CancelKeepsWellFormed` | backend/server.py:275-298 | cancellation keeps the tables well formed |
| `Lifecycle.RoomNumbersKept` | backend/server.py:257-265 | rewriting a room without changing its number keeps the room-number column |
| `Lifecycle.SecondCheckInRefused` | backend/server.py:222-227 | after a successful check-in, checking in any booking for the same room is refused with 400 and changes nothing |
| `Lifecycle.StayRoundTrip` | backend/server.py:171-273 | check-in then checkout: bill charge = RoomRate(type), advance kept, total = check-in balance + additional; customers restored; room freed (restored if it was clean); booking stays Checked-in |
| `Lifecycle.CancelAfterCheckIn` | backend/server.py:275-298 | a Checked-in booking can be cancelled, and the room stays as check-in left it |
| `Lifecycle.CancelTwice` | backend/server.py:283-289 | a second cancellation of the same booking gives 404 and changes nothing |
| `Lifecycle.DoubleRoomStay` | backend/server.py:229-247 | a Double room with advance 1000 and additional 200 is charged 500 whatever was quoted; total −300; room back as it was |
| `Service.FrontDesk.constructor` | backend/server.py:18-20 | the front desk starts with three empty, well-formed tables |
| `Service.FrontDesk.ListRooms` | backend/server.py:87-98 | returns the rooms in order, at most 1000 of them |
| `Service.FrontDesk.ListBookings` | backend/server.py:123-126 | returns the bookings in order, at most 1000 of them |
| `Service.FrontDesk.ListCheckedIn` | backend/server.py:153-164 | returns the checked-in customers in order, at most 1000 of them |
| `Service.FrontDesk.CreateRoom` | backend/server.py:100-105 | inserts the room and leaves the tables as `Transitions.CreateRoom` says, keeping them well formed |
| `Service.FrontDesk.UpdateRoomStatus` | backend/server.py:107-120 | builds the partial update and leaves the tables as `Transitions.UpdateRoomStatus` says |
| `Service.FrontDesk.UpcomingBookings` | backend/server.py:128-143 | the filtering loop and the sort give the listing `UpcomingOf`: sorted, at most 10, all due and from the table |
| `Service.FrontDesk.CreateBooking` | backend/server.py:145-150 | inserts the booking and leaves the tables as `Transitions.CreateBooking` says |
| `Service.FrontDesk.CreateCustomer` | backend/server.py:166-169 | inserts the record as given |
| `Service.FrontDesk.Checkout` | backend/server.py:171-212 | updates, then deletes the customer, then frees the room; reply and tables as `Transitions.Checkout` says |
| `Service.FrontDesk.CheckIn` | backend/server.py:214-273 | looks up, checks, inserts the customer, updates the room, then the booking; reply and tables as `Transitions.CheckIn` says |
| `Service.FrontDesk.Cancel` | backend/server.py:275-298 | marks the booking cancelled, then frees a Reserved room for an Upcoming booking; reply and tables as `Transitions.Cancel` says |

## Left out

- HTTP routing, response models and request validation (backend/server.py:1-26, 370-379): errors are the `Reply` datatype with the status code and detail message.
- The document-store client and its shutdown hook (backend/server.py:17-20, 388-390): the tables are in-memory sequences; a single-record query acts on the first match.
- Conversions between dates and midnight date-times for storage (backend/server.py:91-96, 136-141, 158-163, 252-253, 262-263): dates are day numbers, and "today" is a parameter.
- Generation of uuids and `created_at` timestamps: ids are parameters and are required to be fresh; timestamps are not modelled.
- Sample-data seeding (backend/server.py:301-363) and the greeting route (backend/server.py:366-368): fixture data and a constant reply, not front-desk logic.
- Logging setup (backend/server.py:381-386): no effect on the tables.
- Floating-point rounding: amounts are exact reals.
- Concurrency: handlers run one at a time, so the race between check-in's availability check and its room update is not modelled.
- The checkout branch that reports 404 when the delete removes nothing (backend/server.py:195-196): with one handler at a time, the customer found at the start is always the one deleted.
- Service.FrontDesk.CreateCustomer: the source accepts whatever id the client sends; the model requires it to be fresh, to keep ids unique.
- Service.FrontDesk.UpcomingBookings: the store does not promise an order among bookings with the same check-in day. The model keeps them in table order (a stable sort); the lemmas about the listing do not depend on this choice.
- Features that this version of the source does not have are not modelled: quoted booking amounts, discounts, payment methods, daily sales, expenses, incomes, financial reports, the guest listing, booking update, and room edit or delete.
