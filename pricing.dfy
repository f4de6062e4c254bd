/** The stay calculator that the booking page (js/booking.js) and the create
    handler (routes/bookings.js) both carry: nights are the date difference in
    days rounded up, and the total is nights x price per night x rooms.
    Dates are integer milliseconds since the epoch, as JavaScript's Date holds them. */
module Pricing {

  /** One day in milliseconds: 1000 * 60 * 60 * 24. */
  const MsPerDay: int := 1000 * 60 * 60 * 24

  /** Integer ceiling division, for every sign of the dividend. */
  function CeilDiv(a: int, d: int): (q: int)
    requires d > 0
    ensures (q - 1) * d < a <= q * d
  {
    var q := (a + d - 1) / d;
    var r := (a + d - 1) % d;
    assert a + d - 1 == q * d + r;
    q
  }

  /** `Math.ceil((checkOut - checkIn) / 86400000)`. Defined for every pair of
      dates; it is only positive when check-out is after check-in. */
  function Nights(checkIn: int, checkOut: int): int {
    CeilDiv(checkOut - checkIn, MsPerDay)
  }

  /** `nights * pricePerNight * rooms`. */
  function TotalPrice(nights: int, pricePerNight: int, rooms: int): int {
    nights * pricePerNight * rooms
  }

  /** CeilDiv is THE ceiling: the only whole number n with
      (n - 1) * d < a <= n * d. */
  lemma CeilDivUnique(a: int, d: int, n: int)
    requires d > 0
    ensures CeilDiv(a, d) == n <==> (n - 1) * d < a <= n * d
  {
    var q := CeilDiv(a, d);
    if (n - 1) * d < a <= n * d {
      if n < q {
        assert n * d <= (q - 1) * d by { MulMonotone(n, q - 1, d); }
      } else if n > q {
        assert q * d <= (n - 1) * d by { MulMonotone(q, n - 1, d); }
      }
    }
  }

  lemma MulMonotone(x: int, y: int, d: int)
    requires x <= y && d > 0
    ensures x * d <= y * d
  {
    assert y * d - x * d == (y - x) * d;
  }

  /** The ceiling is at least one exactly when the dividend is positive. */
  lemma CeilDivPositiveIff(a: int, d: int)
    requires d > 0
    ensures CeilDiv(a, d) >= 1 <==> a > 0
  {
    var q := CeilDiv(a, d);
    if q <= 0 {
      MulMonotone(q, 0, d);
    } else {
      MulMonotone(0, q - 1, d);
    }
  }

  /** A larger dividend never has a smaller ceiling. */
  lemma CeilDivMonotone(a: int, b: int, d: int)
    requires a <= b && d > 0
    ensures CeilDiv(a, d) <= CeilDiv(b, d)
  {
    var qa := CeilDiv(a, d);
    var qb := CeilDiv(b, d);
    if qb < qa {
      MulMonotone(qb, qa - 1, d);
    }
  }

  /** Nights is the ceiling of the stay in days: the only n with
      (n - 1) days < stay <= n days. */
  lemma NightsIsCeiling(checkIn: int, checkOut: int, n: int)
    ensures Nights(checkIn, checkOut) == n <==>
            (n - 1) * MsPerDay < checkOut - checkIn <= n * MsPerDay
  {
    CeilDivUnique(checkOut - checkIn, MsPerDay, n);
  }

  /** At least one night is charged exactly when check-out is after check-in. */
  lemma NightsPositiveIff(checkIn: int, checkOut: int)
    ensures Nights(checkIn, checkOut) >= 1 <==> checkOut > checkIn
  {
    CeilDivPositiveIff(checkOut - checkIn, MsPerDay);
  }

  /** A later check-out never charges fewer nights. */
  lemma NightsMonotone(checkIn: int, checkOut: int, later: int)
    requires checkOut <= later
    ensures Nights(checkIn, checkOut) <= Nights(checkIn, later)
  {
    CeilDivMonotone(checkOut - checkIn, later - checkIn, MsPerDay);
  }

  /** A stay of whole days is charged exactly that many nights. */
  lemma WholeDays(checkIn: int, days: int)
    ensures Nights(checkIn, checkIn + days * MsPerDay) == days
  {
    NightsIsCeiling(checkIn, checkIn + days * MsPerDay, days);
  }

  /** 1 June 2024 to 4 June 2024 (UTC) at 3500 a night for two rooms: three
      nights, 21000 in all. */
  lemma JuneScenario()
    ensures Nights(1717200000000, 1717459200000) == 3
    ensures TotalPrice(Nights(1717200000000, 1717459200000), 3500, 2) == 21000
  {
    WholeDays(1717200000000, 3);
  }

  /** A stay of 25 hours is charged two nights. */
  lemma TwentyFiveHours(checkIn: int)
    ensures Nights(checkIn, checkIn + 25 * 60 * 60 * 1000) == 2
  {
    NightsIsCeiling(checkIn, checkIn + 25 * 60 * 60 * 1000, 2);
  }

  /** With positive price and rooms, a valid stay has a positive total, at least
      one night's price per room. */
  lemma TotalAtLeastOneNight(checkIn: int, checkOut: int, pricePerNight: int, rooms: int)
    requires checkOut > checkIn && pricePerNight > 0 && rooms >= 1
    ensures TotalPrice(Nights(checkIn, checkOut), pricePerNight, rooms) >= pricePerNight * rooms > 0
  {
    NightsPositiveIff(checkIn, checkOut);
    var n := Nights(checkIn, checkOut);
    assert n * pricePerNight >= pricePerNight;
    assert n * pricePerNight * rooms >= pricePerNight * rooms;
  }
}
