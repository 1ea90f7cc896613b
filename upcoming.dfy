/** The upcoming-bookings listing: bookings still Upcoming whose check-in
    day is today or later, earliest first, at most ten of them. */
module Upcoming {
  import opened HotelTypes
  import opened Search

  /** How many bookings the listing returns at most. */
  const UpcomingLimit: nat := 10

  predicate IsDue(b: Booking, today: Date) {
    b.status == Upcoming && b.checkInDate >= today
  }

  /** The due bookings, in table order. */
  function Due(bs: seq<Booking>, today: Date): (r: seq<Booking>)
    ensures forall b :: multiset(r)[b] == if IsDue(b, today) then multiset(bs)[b] else 0
  {
    if bs == [] then []
    else
      var init, last := bs[..|bs| - 1], bs[|bs| - 1];
      assert bs == init + [last];
      Due(init, today) + if IsDue(last, today) then [last] else []
  }

  predicate SortedByCheckIn(s: seq<Booking>) {
    forall i, j :: 0 <= i < j < |s| ==> s[i].checkInDate <= s[j].checkInDate
  }

  /** Insert b before the first booking that does not start earlier. */
  function Insert(b: Booking, s: seq<Booking>): (r: seq<Booking>)
    requires SortedByCheckIn(s)
    ensures SortedByCheckIn(r)
    ensures multiset(r) == multiset(s) + multiset{b}
    ensures forall x :: x in r ==> x == b || x in s
  {
    if s == [] || b.checkInDate <= s[0].checkInDate then
      [b] + s
    else
      var rest := Insert(b, s[1..]);
      assert s == [s[0]] + s[1..];
      LowerBound(s[0], rest, b, s[1..]);
      [s[0]] + rest
  }

  /** A booking no later than anything in a sorted sequence can go in front of it. */
  lemma LowerBound(first: Booking, rest: seq<Booking>, b: Booking, tail: seq<Booking>)
    requires SortedByCheckIn(rest)
    requires forall x :: x in rest ==> x == b || x in tail
    requires first.checkInDate <= b.checkInDate
    requires forall x :: x in tail ==> first.checkInDate <= x.checkInDate
    ensures SortedByCheckIn([first] + rest)
  {
    var r := [first] + rest;
    forall i, j | 0 <= i < j < |r| ensures r[i].checkInDate <= r[j].checkInDate {
      if i == 0 {
        assert r[j] == rest[j - 1];
        assert rest[j - 1] in rest;
      } else {
        assert r[i] == rest[i - 1] && r[j] == rest[j - 1];
      }
    }
  }

  /** A stable insertion sort by check-in day. */
  function SortByCheckIn(s: seq<Booking>): (r: seq<Booking>)
    ensures SortedByCheckIn(r)
    ensures multiset(r) == multiset(s)
  {
    if s == [] then []
    else
      assert s == [s[0]] + s[1..];
      Insert(s[0], SortByCheckIn(s[1..]))
  }

  /** The listing itself. */
  function UpcomingOf(bs: seq<Booking>, today: Date): seq<Booking> {
    Cap(SortByCheckIn(Due(bs, today)), UpcomingLimit)
  }

  /** Every listed booking is in the table, Upcoming, and not in the past. */
  lemma UpcomingAreDue(bs: seq<Booking>, today: Date)
    ensures forall b :: b in UpcomingOf(bs, today) ==> b in bs && IsDue(b, today)
  {
    var sorted := SortByCheckIn(Due(bs, today));
    var r := UpcomingOf(bs, today);
    forall b | b in r ensures b in bs && IsDue(b, today) {
      assert b in sorted;
      assert b in multiset(Due(bs, today));
    }
  }

  /** The listing is ordered by check-in day and holds at most ten bookings;
      it holds all due bookings when there are at most ten of them. */
  lemma UpcomingShape(bs: seq<Booking>, today: Date)
    ensures SortedByCheckIn(UpcomingOf(bs, today))
    ensures |UpcomingOf(bs, today)| <= UpcomingLimit
    ensures |Due(bs, today)| <= UpcomingLimit ==> multiset(UpcomingOf(bs, today)) == multiset(Due(bs, today))
    ensures |Due(bs, today)| > UpcomingLimit ==> |UpcomingOf(bs, today)| == UpcomingLimit
  {
    var sorted := SortByCheckIn(Due(bs, today));
    assert |sorted| == |multiset(sorted)| == |Due(bs, today)|;
  }

  /** In a sorted sequence, whatever lies beyond the first n starts no
      earlier than anything among them. */
  lemma LeftOutStartsLater(s: seq<Booking>, n: nat, b: Booking, x: Booking)
    requires SortedByCheckIn(s) && n <= |s|
    requires b in multiset(s) - multiset(s[..n]) && x in s[..n]
    ensures x.checkInDate <= b.checkInDate
  {
    assert s == s[..n] + s[n..];
    assert multiset(s) == multiset(s[..n]) + multiset(s[n..]);
    assert b in s[n..];
    var m :| 0 <= m < |s[n..]| && s[n..][m] == b;
    var y :| 0 <= y < n && s[..n][y] == x;
    assert s[y] == x && s[n + m] == b;
  }

  /** The cap keeps the earliest: every due booking that is left out starts
      no earlier than any booking that is listed. */
  lemma UpcomingAreEarliest(bs: seq<Booking>, today: Date)
    ensures multiset(UpcomingOf(bs, today)) <= multiset(Due(bs, today))
    ensures forall b, x :: b in multiset(Due(bs, today)) - multiset(UpcomingOf(bs, today)) && x in UpcomingOf(bs, today) ==>
              x.checkInDate <= b.checkInDate
  {
    var due := Due(bs, today);
    var sorted := SortByCheckIn(due);
    var r := UpcomingOf(bs, today);
    var n := |r|;
    assert r == sorted[..n];
    assert sorted == r + sorted[n..];
    assert multiset(sorted) == multiset(r) + multiset(sorted[n..]);
    forall b, x | b in multiset(due) - multiset(r) && x in r
      ensures x.checkInDate <= b.checkInDate
    {
      LeftOutStartsLater(sorted, n, b, x);
    }
  }
}
