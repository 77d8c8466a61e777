/** The three day counts of the system, over millisecond timestamps: the leave count stored by
    the request controller, and the `calculateDays` helpers of the client and of the server. */
module Days {

  /** Milliseconds in a day: `1000 * 60 * 60 * 24`. */
  const DayMs: int := 86400000

  function Abs(x: int): nat {
    if x < 0 then -x else x
  }

  /** `Math.ceil(a / b)` for integers `a` and a positive `b`, computed exactly. */
  function CeilDiv(a: int, b: int): (q: int)
    requires b > 0
    ensures b * (q - 1) < a <= b * q
  {
    var f := (-a) / b;
    assert b * f <= -a < b * f + b;
    -f
  }

  /** The ceiling is the only integer with that property. */
  lemma CeilDivUnique(a: int, b: int, q: int)
    requires b > 0 && b * (q - 1) < a <= b * q
    ensures CeilDiv(a, b) == q
  {
    var c := CeilDiv(a, b);
    assert b * (c - 1) < a <= b * c;
  }

  /** The leave request's `numberOfDays`: `Math.ceil((to - from) / DAY) + 1`, with no `abs`. */
  function LeaveDays(from: int, to: int): (r: int)
    ensures DayMs * (r - 2) < to - from <= DayMs * (r - 1)
  {
    CeilDiv(to - from, DayMs) + 1
  }

  /** The client's `calculateDays`: `Math.ceil(|to - from| / DAY) + 1`. */
  function ClientDays(from: int, to: int): (r: int)
    ensures r >= 1 && DayMs * (r - 2) < Abs(to - from) <= DayMs * (r - 1)
  {
    CeilDiv(Abs(to - from), DayMs) + 1
  }

  /** The server's `calculateDays`: `Math.ceil(|end - start| / DAY)`, with no `+ 1`. */
  function ServerDays(start: int, end: int): (r: int)
    ensures r >= 0 && DayMs * (r - 1) < Abs(end - start) <= DayMs * r
  {
    CeilDiv(Abs(end - start), DayMs)
  }

  /** The client count is symmetric, at least 1, and 1 for equal dates. */
  lemma ClientDaysFacts(a: int, b: int)
    ensures ClientDays(a, b) == ClientDays(b, a)
    ensures ClientDays(a, b) >= 1
    ensures ClientDays(a, a) == 1
  {
    assert Abs(b - a) == Abs(a - b);
    CeilDivUnique(0, DayMs, 0);
  }

  /** The server count is symmetric, never negative, 0 for equal dates, and exactly one less
      than the client count for the same dates. */
  lemma ServerDaysFacts(a: int, b: int)
    ensures ServerDays(a, b) == ServerDays(b, a)
    ensures ServerDays(a, b) >= 0
    ensures ServerDays(a, a) == 0
    ensures ClientDays(a, b) == ServerDays(a, b) + 1
  {
    assert Abs(b - a) == Abs(a - b);
    CeilDivUnique(0, DayMs, 0);
  }

  /** For dates a whole number of days apart, the server count is that number of days. */
  lemma ServerDaysWholeDays(start: int, n: int)
    ensures ServerDays(start, start + n * DayMs) == Abs(n)
  {
    var d := (start + n * DayMs) - start;
    assert d == n * DayMs;
    if n >= 0 {
      assert Abs(d) == n * DayMs;
      CeilDivUnique(n * DayMs, DayMs, n);
    } else {
      assert Abs(d) == (-n) * DayMs;
      CeilDivUnique((-n) * DayMs, DayMs, -n);
    }
  }

  /** The leave count: 1 for equal dates, the client count when the range is in order, and at
      most 0 when `to` is a whole day or more before `from`. */
  lemma LeaveDaysFacts(from: int, to: int)
    ensures LeaveDays(from, from) == 1
    ensures from <= to ==> LeaveDays(from, to) == ClientDays(from, to)
    ensures to <= from - DayMs ==> LeaveDays(from, to) <= 0
  {
    CeilDivUnique(0, DayMs, 0);
    if to <= from - DayMs {
      var q := CeilDiv(to - from, DayMs);
      assert DayMs * (q - 1) < to - from <= -DayMs;
      assert q - 1 < -1;
    }
  }

  /** 2024-01-01 to 2024-01-05 (midnight UTC) is five leave days. */
  lemma LeaveDaysExample()
    ensures LeaveDays(1704067200000, 1704412800000) == 5
  {
    assert 1704412800000 - 1704067200000 == 4 * DayMs;
    CeilDivUnique(4 * DayMs, DayMs, 4);
  }
}
