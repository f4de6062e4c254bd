/** The statistics of the admin dashboard (js/admin-dashboard.js): user and
    administrator counts from the user list, and the confirmed-booking count,
    rooms booked and rooms still available from the booking list, against a
    fixed capacity of 50 rooms. */
module Dashboard {
  import opened Common

  /** A user as the user list returns it; only the admin flag matters here. */
  datatype UserEntry = UserEntry(isAdmin: Option<bool>)

  /** A booking as the booking list returns it. */
  datatype BookingEntry = BookingEntry(status: string, numberOfRooms: int)

  /** The hotel's capacity as the dashboard assumes it. */
  const TotalRooms: int := 50

  /** `Array.prototype.filter`. */
  function Filter<T>(s: seq<T>, p: T -> bool): (r: seq<T>)
    ensures |r| <= |s|
    ensures forall i :: 0 <= i < |r| ==> p(r[i])
    ensures forall i :: 0 <= i < |s| && p(s[i]) ==> s[i] in r
  {
    if s == [] then []
    else (if p(s[0]) then [s[0]] else []) + Filter(s[1..], p)
  }

  lemma {:induction false} FilterAppend<T>(a: seq<T>, b: seq<T>, p: T -> bool)
    ensures Filter(a + b, p) == Filter(a, p) + Filter(b, p)
  {
    if a != [] {
      assert (a + b)[1..] == a[1..] + b;
      FilterAppend(a[1..], b, p);
    } else {
      assert a + b == b;
    }
  }

  predicate IsAdminEntry(u: UserEntry) {
    u.isAdmin == Some(true)
  }

  /** `b.status === 'Confirmed'`: exact and case-sensitive. */
  predicate IsConfirmed(b: BookingEntry) {
    b.status == "Confirmed"
  }

  /** totalAdmins: the users whose admin flag is truthy. */
  function TotalAdmins(users: seq<UserEntry>): nat {
    |Filter(users, IsAdminEntry)|
  }

  /** Appending a user adds one to the admin count exactly when that user
      is an admin. */
  lemma TotalAdminsGrows(users: seq<UserEntry>, u: UserEntry)
    ensures TotalAdmins(users + [u]) == TotalAdmins(users) + (if IsAdminEntry(u) then 1 else 0)
  {
    FilterAppend(users, [u], IsAdminEntry);
    assert Filter([u], IsAdminEntry) == (if IsAdminEntry(u) then [u] else []) + Filter([], IsAdminEntry);
  }

  /** The confirmed-booking count shown as "total bookings". */
  function ConfirmedBookings(bookings: seq<BookingEntry>): nat {
    |Filter(bookings, IsConfirmed)|
  }

  /** `reduce((sum, b) => sum + b.numberOfRooms, 0)`. */
  function SumRooms(bookings: seq<BookingEntry>): int {
    if bookings == [] then 0 else SumRooms(bookings[..|bookings| - 1]) + bookings[|bookings| - 1].numberOfRooms
  }

  lemma {:induction false} SumRoomsAppend(a: seq<BookingEntry>, b: seq<BookingEntry>)
    ensures SumRooms(a + b) == SumRooms(a) + SumRooms(b)
    decreases |b|
  {
    if b != [] {
      assert (a + b)[..|a + b| - 1] == a + b[..|b| - 1];
      SumRoomsAppend(a, b[..|b| - 1]);
    } else {
      assert a + b == a;
    }
  }

  /** totalRoomsBooked: rooms of the confirmed bookings only. */
  function RoomsBooked(bookings: seq<BookingEntry>): int {
    SumRooms(Filter(bookings, IsConfirmed))
  }

  /** `50 - totalRoomsBooked`, not clamped at zero. */
  function AvailableRooms(bookings: seq<BookingEntry>): int {
    TotalRooms - RoomsBooked(bookings)
  }

  /** One more booking in the list adds its rooms to the booked total when
      it is confirmed, and nothing otherwise (a pending, cancelled or
      completed booking, or a status spelt in another case). */
  lemma RoomsBookedGrows(bookings: seq<BookingEntry>, b: BookingEntry)
    ensures RoomsBooked(bookings + [b]) ==
              RoomsBooked(bookings) + (if IsConfirmed(b) then b.numberOfRooms else 0)
    ensures ConfirmedBookings(bookings + [b]) ==
              ConfirmedBookings(bookings) + (if IsConfirmed(b) then 1 else 0)
  {
    FilterAppend(bookings, [b], IsConfirmed);
    assert Filter([b], IsConfirmed) == if IsConfirmed(b) then [b] else [];
    SumRoomsAppend(Filter(bookings, IsConfirmed), Filter([b], IsConfirmed));
    assert SumRooms([b]) == b.numberOfRooms by {
      assert [b][..0] == [];
    }
  }

  /** Bookings that all hold at least one room (as the schema guarantees)
      book at least as many rooms as there are confirmed bookings. */
  lemma {:induction false} RoomsAtLeastBookings(bookings: seq<BookingEntry>)
    requires forall i :: 0 <= i < |bookings| ==> bookings[i].numberOfRooms >= 1
    ensures RoomsBooked(bookings) >= ConfirmedBookings(bookings)
    decreases |bookings|
  {
    if bookings != [] {
      var front := bookings[..|bookings| - 1];
      var last := bookings[|bookings| - 1];
      assert bookings == front + [last];
      RoomsAtLeastBookings(front);
      RoomsBookedGrows(front, last);
    }
  }

  /** Nothing caps the bookings at the capacity, so the available count goes
      negative: one confirmed booking of 51 rooms leaves -1. */
  lemma AvailableCanBeNegative()
    ensures AvailableRooms([BookingEntry("Confirmed", 51)]) == -1
    ensures AvailableRooms([BookingEntry("confirmed", 51)]) == 50
  {
    RoomsBookedGrows([], BookingEntry("Confirmed", 51));
    RoomsBookedGrows([], BookingEntry("confirmed", 51));
    assert [] + [BookingEntry("Confirmed", 51)] == [BookingEntry("Confirmed", 51)];
    assert [] + [BookingEntry("confirmed", 51)] == [BookingEntry("confirmed", 51)];
  }

  /** The outcome of one `fetch` and its JSON: it threw, it answered without
      `ok && success`, or it answered with the list. */
  datatype Fetch<T> = Threw | NotOk | Answered(list: T)

  /** What fetchStats writes: user figures (total, admins) and booking figures
      (confirmed, available); `None` leaves the figures on the page as they were. */
  datatype Stats = Stats(userFigures: Option<(nat, nat)>, bookingFigures: Option<(nat, int)>)

  /** fetchStats: each half is shown only from its own successful answer, but
      both requests sit in one try block, so a users request that throws
      means the bookings request is never made. */
  function FetchStats(usersFetch: Fetch<seq<UserEntry>>, bookingsFetch: Fetch<seq<BookingEntry>>): (st: Stats)
    ensures st.userFigures.Some? <==> usersFetch.Answered?
    ensures st.userFigures.Some? ==>
              st.userFigures.value.0 == |usersFetch.list| &&
              st.userFigures.value.1 == TotalAdmins(usersFetch.list) <= |usersFetch.list|
    ensures st.bookingFigures.Some? <==> !usersFetch.Threw? && bookingsFetch.Answered?
    ensures st.bookingFigures.Some? ==>
              st.bookingFigures.value == (ConfirmedBookings(bookingsFetch.list), AvailableRooms(bookingsFetch.list))
  {
    var userFigures :=
      if usersFetch.Answered? then Some((|usersFetch.list|, TotalAdmins(usersFetch.list))) else None;
    if usersFetch.Threw? then Stats(None, None)
    else
      var bookingFigures :=
        if bookingsFetch.Answered?
        then Some((ConfirmedBookings(bookingsFetch.list), AvailableRooms(bookingsFetch.list)))
        else None;
      Stats(userFigures, bookingFigures)
  }
}
