/**
 * The hand-written booking queries, evaluated over a snapshot of the
 * bookings table. SQL NULL never satisfies a comparison, so a row whose
 * relation or start time is unset is never selected by a filter on it.
 * No query looks at the soft-delete columns.
 */
module BookingQueries {
  import opened JavaLang
  import opened BookingStatuses
  import opened Time
  import opened Bookings

  /** `status NOT IN ('CANCELLED', 'NO_SHOW')`. */
  predicate Listed(s: BookingStatus) {
    s != CANCELLED && s != NO_SHOW
  }

  /** `startTime BETWEEN from AND to`: inclusive at both ends. */
  predicate StartsBetween(r: BookingRow, from: int, to: int) {
    r.startTime.Some? && from <= r.startTime.value <= to
  }

  /** `startTime >= now`. */
  predicate StartsFrom(r: BookingRow, now: int) {
    r.startTime.Some? && r.startTime.value >= now
  }

  predicate ProfessionalInRange(r: BookingRow, professionalId: int, from: int, to: int) {
    r.professionalId == Some(professionalId) && StartsBetween(r, from, to) && Listed(r.status)
  }

  predicate BusinessInRange(r: BookingRow, businessId: int, from: int, to: int) {
    r.businessId == Some(businessId) && StartsBetween(r, from, to) && Listed(r.status)
  }

  /** `CAST(startTime AS DATE) = CURRENT_DATE`. */
  predicate BusinessToday(r: BookingRow, businessId: int, today: int) {
    r.businessId == Some(businessId) && r.startTime.Some? && DateOf(r.startTime.value) == today && Listed(r.status)
  }

  predicate UpcomingConfirmed(r: BookingRow, businessId: int, now: int) {
    r.businessId == Some(businessId) && r.status == CONFIRMED && StartsFrom(r, now)
  }

  /** `business.id = :businessId AND status = :status`. */
  predicate OfBusinessWithStatus(r: BookingRow, businessId: int, status: BookingStatus) {
    r.businessId == Some(businessId) && r.status == status
  }

  predicate NoShowOf(r: BookingRow, customerId: int) {
    r.customerId == Some(customerId) && r.status == NO_SHOW
  }

  /** The rows that satisfy `p`, each as often as it occurs, in table order. */
  function Where(rows: seq<BookingRow>, p: BookingRow -> bool): (res: seq<BookingRow>)
    ensures forall x :: multiset(res)[x] == if p(x) then multiset(rows)[x] else 0
    ensures forall x :: x in res <==> x in rows && p(x)
    ensures |res| <= |rows|
  {
    if rows == [] then []
    else
      assert rows == [rows[0]] + rows[1..];
      (if p(rows[0]) then [rows[0]] else []) + Where(rows[1..], p)
  }

  /** `COUNT(b)` over the rows that satisfy `p`. */
  function CountWhere(rows: seq<BookingRow>, p: BookingRow -> bool): (n: nat)
    ensures n == |Where(rows, p)|
  {
    if rows == [] then 0
    else (if p(rows[0]) then 1 else 0) + CountWhere(rows[1..], p)
  }

  predicate AllTimed(rows: seq<BookingRow>) {
    forall r :: r in rows ==> r.startTime.Some?
  }

  /** `ORDER BY b.startTime ASC`. */
  predicate StartsAscending(rows: seq<BookingRow>) {
    AllTimed(rows) &&
    forall i, j :: 0 <= i < j < |rows| ==> rows[i].startTime.value <= rows[j].startTime.value
  }

  function InsertByStart(x: BookingRow, sorted: seq<BookingRow>): (res: seq<BookingRow>)
    requires x.startTime.Some? && StartsAscending(sorted)
    ensures forall y :: y in res ==> y == x || y in sorted
    ensures StartsAscending(res)
    ensures multiset(res) == multiset(sorted) + multiset{x}
  {
    if sorted == [] then [x]
    else if x.startTime.value <= sorted[0].startTime.value then
      PrependKeepsAscending(x, sorted);
      [x] + sorted
    else
      var rest := InsertByStart(x, sorted[1..]);
      assert sorted == [sorted[0]] + sorted[1..];
      PrependKeepsAscending(sorted[0], rest);
      [sorted[0]] + rest
  }

  lemma PrependKeepsAscending(h: BookingRow, rows: seq<BookingRow>)
    requires h.startTime.Some? && StartsAscending(rows)
    requires forall y :: y in rows ==> h.startTime.value <= y.startTime.value
    ensures StartsAscending([h] + rows)
  {
    var s := [h] + rows;
    forall i, j | 0 <= i < j < |s| ensures s[i].startTime.value <= s[j].startTime.value {
      if i > 0 {
        assert s[i] == rows[i - 1] && s[j] == rows[j - 1];
      } else {
        assert s[j] == rows[j - 1] && s[j] in rows;
      }
    }
  }

  /** Ascending by start time; rows that start together keep their table order. */
  function SortByStart(rows: seq<BookingRow>): (res: seq<BookingRow>)
    requires AllTimed(rows)
    ensures StartsAscending(res)
    ensures multiset(res) == multiset(rows)
  {
    if rows == [] then []
    else
      assert rows == [rows[0]] + rows[1..];
      InsertByStart(rows[0], SortByStart(rows[1..]))
  }

  /** The professional's bookings starting within [startTime, endTime] that are
      neither cancelled nor no-shows. */
  function FindProfessionalBookingsInRange(rows: seq<BookingRow>, professionalId: int, startTime: int, endTime: int): (res: seq<BookingRow>)
    ensures forall x :: x in res <==> x in rows && ProfessionalInRange(x, professionalId, startTime, endTime)
    ensures forall x :: multiset(res)[x] == if ProfessionalInRange(x, professionalId, startTime, endTime) then multiset(rows)[x] else 0
  {
    Where(rows, r => ProfessionalInRange(r, professionalId, startTime, endTime))
  }

  /** The business's listed bookings whose start falls on `today`, earliest first. */
  function FindTodayBookingsByBusiness(rows: seq<BookingRow>, businessId: int, today: int): (res: seq<BookingRow>)
    ensures forall x :: x in res <==> x in rows && BusinessToday(x, businessId, today)
    ensures forall x :: multiset(res)[x] == if BusinessToday(x, businessId, today) then multiset(rows)[x] else 0
    ensures StartsAscending(res)
  {
    SortByStart(Where(rows, r => BusinessToday(r, businessId, today)))
  }

  /** The business's listed bookings starting within [startDate, endDate], earliest first. */
  function FindBookingsByBusinessAndDateRange(rows: seq<BookingRow>, businessId: int, startDate: int, endDate: int): (res: seq<BookingRow>)
    ensures forall x :: x in res <==> x in rows && BusinessInRange(x, businessId, startDate, endDate)
    ensures forall x :: multiset(res)[x] == if BusinessInRange(x, businessId, startDate, endDate) then multiset(rows)[x] else 0
    ensures StartsAscending(res)
  {
    SortByStart(Where(rows, r => BusinessInRange(r, businessId, startDate, endDate)))
  }

  /** The business's bookings in the given status, whichever status it is, in table order. */
  function FindByBusinessIdAndStatus(rows: seq<BookingRow>, businessId: int, status: BookingStatus): (res: seq<BookingRow>)
    ensures forall x :: x in res <==> x in rows && OfBusinessWithStatus(x, businessId, status)
    ensures forall x :: multiset(res)[x] == if OfBusinessWithStatus(x, businessId, status) then multiset(rows)[x] else 0
  {
    Where(rows, r => OfBusinessWithStatus(r, businessId, status))
  }

  /** Number of the business's CONFIRMED bookings that start at or after `now`. */
  function CountUpcomingBookingsByBusiness(rows: seq<BookingRow>, businessId: int, now: int): (n: nat)
    ensures n <= |rows|
    ensures n == 0 <==> forall x :: x in rows ==> !UpcomingConfirmed(x, businessId, now)
  {
    CountWhere(rows, r => UpcomingConfirmed(r, businessId, now))
  }

  /** Number of the customer's bookings with status NO_SHOW. */
  function CountNoShowsByCustomer(rows: seq<BookingRow>, customerId: int): (n: nat)
    ensures n <= |rows|
    ensures n == 0 <==> forall x :: x in rows ==> !NoShowOf(x, customerId)
  {
    CountWhere(rows, r => NoShowOf(r, customerId))
  }

  /** A soft-deleted row: the repository's view of `softDelete()`. */
  function SoftDeleted(r: BookingRow, now: int): BookingRow {
    r.(deletedAt := Some(now), isActive := Some(false))
  }

  /** Replacing one row moves a count by what the old and the new row contribute. */
  lemma {:induction false} CountWhereReplace(rows: seq<BookingRow>, i: nat, x: BookingRow, p: BookingRow -> bool)
    requires i < |rows|
    ensures CountWhere(rows[i := x], p) + (if p(rows[i]) then 1 else 0) == CountWhere(rows, p) + (if p(x) then 1 else 0)
  {
    if i > 0 {
      assert rows[i := x][1..] == rows[1..][i - 1 := x];
      CountWhereReplace(rows[1..], i - 1, x, p);
    }
  }

  /** Filters that agree on every row select the same rows. */
  lemma {:induction false} WhereAgreeing(rows: seq<BookingRow>, p: BookingRow -> bool, q: BookingRow -> bool)
    requires forall x :: x in rows ==> p(x) == q(x)
    ensures Where(rows, p) == Where(rows, q)
  {
    if rows != [] {
      WhereAgreeing(rows[1..], p, q);
    }
  }

  /** Filtering twice is filtering once by both conditions. */
  lemma {:induction false} WhereOfWhere(rows: seq<BookingRow>, p: BookingRow -> bool, q: BookingRow -> bool)
    ensures Where(Where(rows, p), q) == Where(rows, r => p(r) && q(r))
  {
    if rows != [] {
      var h, w := rows[0], Where(rows[1..], p);
      WhereOfWhere(rows[1..], p, q);
      if p(h) {
        var hw := [h] + w;
        assert Where(rows, p) == hw;
        assert hw[0] == h && hw[1..] == w;
        assert Where(hw, q) == (if q(h) then [h] else []) + Where(w, q);
      } else {
        assert Where(rows, p) == w;
      }
    }
  }

  /** The upcoming count is the number of the business's CONFIRMED bookings,
      as the status listing returns them, that start at or after `now`. */
  lemma UpcomingCountsConfirmedListing(rows: seq<BookingRow>, businessId: int, now: int)
    ensures CountUpcomingBookingsByBusiness(rows, businessId, now)
         == |Where(FindByBusinessIdAndStatus(rows, businessId, CONFIRMED), r => StartsFrom(r, now))|
  {
    var p := r => OfBusinessWithStatus(r, businessId, CONFIRMED);
    var q := r => StartsFrom(r, now);
    WhereAgreeing(rows, p, r => OfBusinessWithStatus(r, businessId, CONFIRMED));
    WhereOfWhere(rows, p, q);
    WhereAgreeing(rows, r => p(r) && q(r), r => UpcomingConfirmed(r, businessId, now));
  }

  /** Marking one of a customer's bookings as a no-show raises that customer's
      no-show count by exactly one. */
  lemma NoShowCountsOnce(rows: seq<BookingRow>, i: nat, customerId: int)
    requires i < |rows| && rows[i].customerId == Some(customerId) && rows[i].status != NO_SHOW
    ensures CountNoShowsByCustomer(rows[i := rows[i].(status := NO_SHOW)], customerId) == CountNoShowsByCustomer(rows, customerId) + 1
  {
    CountWhereReplace(rows, i, rows[i].(status := NO_SHOW), r => NoShowOf(r, customerId));
  }

  /** Confirming a booking of the business that starts at or after `now` raises
      the upcoming count by exactly one; cancelling a confirmed one lowers it by one. */
  lemma UpcomingCountFollowsConfirmation(rows: seq<BookingRow>, i: nat, businessId: int, now: int)
    requires i < |rows| && rows[i].businessId == Some(businessId)
    requires rows[i].startTime.Some? && rows[i].startTime.value >= now
    ensures rows[i].status != CONFIRMED ==>
      CountUpcomingBookingsByBusiness(rows[i := rows[i].(status := CONFIRMED)], businessId, now) == CountUpcomingBookingsByBusiness(rows, businessId, now) + 1
    ensures rows[i].status == CONFIRMED ==>
      CountUpcomingBookingsByBusiness(rows[i := rows[i].(status := CANCELLED)], businessId, now) + 1 == CountUpcomingBookingsByBusiness(rows, businessId, now)
  {
    CountWhereReplace(rows, i, rows[i].(status := CONFIRMED), r => UpcomingConfirmed(r, businessId, now));
    CountWhereReplace(rows, i, rows[i].(status := CANCELLED), r => UpcomingConfirmed(r, businessId, now));
  }

  /** No count filters on the soft-delete columns: soft-deleting a row leaves both counts unchanged. */
  lemma SoftDeleteKeepsCounts(rows: seq<BookingRow>, i: nat, t: int, id: int, now: int)
    requires i < |rows|
    ensures CountUpcomingBookingsByBusiness(rows[i := SoftDeleted(rows[i], t)], id, now) == CountUpcomingBookingsByBusiness(rows, id, now)
    ensures CountNoShowsByCustomer(rows[i := SoftDeleted(rows[i], t)], id) == CountNoShowsByCustomer(rows, id)
  {
    CountWhereReplace(rows, i, SoftDeleted(rows[i], t), r => UpcomingConfirmed(r, id, now));
    CountWhereReplace(rows, i, SoftDeleted(rows[i], t), r => NoShowOf(r, id));
  }

  /** No listing filters on the soft-delete columns: a soft-deleted row is
      listed exactly when it was listed before the deletion. */
  lemma SoftDeleteKeepsListings(rows: seq<BookingRow>, i: nat, t: int, id: int, from: int, to: int, today: int)
    requires i < |rows|
    ensures SoftDeleted(rows[i], t) in FindProfessionalBookingsInRange(rows[i := SoftDeleted(rows[i], t)], id, from, to)
        <==> rows[i] in FindProfessionalBookingsInRange(rows, id, from, to)
    ensures SoftDeleted(rows[i], t) in FindBookingsByBusinessAndDateRange(rows[i := SoftDeleted(rows[i], t)], id, from, to)
        <==> rows[i] in FindBookingsByBusinessAndDateRange(rows, id, from, to)
    ensures SoftDeleted(rows[i], t) in FindTodayBookingsByBusiness(rows[i := SoftDeleted(rows[i], t)], id, today)
        <==> rows[i] in FindTodayBookingsByBusiness(rows, id, today)
  {
    var after := rows[i := SoftDeleted(rows[i], t)];
    assert rows[i] in rows;
    assert after[i] == SoftDeleted(rows[i], t);
    assert SoftDeleted(rows[i], t) in after;
  }

  /** Today's listing is the date-range listing over the minutes of today,
      00:00 through 23:59 inclusive. */
  lemma TodayIsDayRange(rows: seq<BookingRow>, businessId: int, today: int)
    ensures FindTodayBookingsByBusiness(rows, businessId, today)
         == FindBookingsByBusinessAndDateRange(rows, businessId, today * MINUTES_PER_DAY, today * MINUTES_PER_DAY + MINUTES_PER_DAY - 1)
  {
    var from, to := today * MINUTES_PER_DAY, today * MINUTES_PER_DAY + MINUTES_PER_DAY - 1;
    forall x | x in rows ensures BusinessToday(x, businessId, today) == BusinessInRange(x, businessId, from, to) {
      if x.startTime.Some? {
        DateOfIsDayRange(x.startTime.value, today);
      }
    }
    WhereAgreeing(rows, r => BusinessToday(r, businessId, today), r => BusinessInRange(r, businessId, from, to));
  }
}
