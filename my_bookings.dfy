/**
 * The "my bookings" page: the fetched list and its loading flag, the
 * upcoming/historical partition computed on the client, cancel (a status
 * update followed by a re-fetch) and reschedule (stash the booking in session
 * storage and go to the location step).
 */
module MyBookings {
  import opened Common
  import opened BookingTable

  /** Session-storage key under which reschedule leaves the booking. */
  const RescheduleKey: string := "rescheduleBooking"

  /** `isFuture(date)`: strictly after the current instant. */
  predicate IsFuture(date: int, now: int) { date > now }

  /** `isPast(date)`: strictly before the current instant. */
  predicate IsPast(date: int, now: int) { date < now }

  /** The filter of the upcoming list. */
  predicate IsUpcoming(b: Booking, now: int) {
    b.status == "scheduled" && IsFuture(b.bookingDate, now)
  }

  /** The filter of the historical list. */
  predicate IsHistorical(b: Booking, now: int) {
    b.status == "cancelled" || IsPast(b.bookingDate, now)
  }

  /** `Array.prototype.filter`: the elements satisfying `p`, in order. */
  function Keep(s: seq<Booking>, p: Booking -> bool): (r: seq<Booking>)
    ensures |r| <= |s|
    ensures forall b :: b in r <==> b in s && p(b)
  {
    if s == [] then []
    else if p(s[0]) then [s[0]] + Keep(s[1..], p)
    else Keep(s[1..], p)
  }

  function FutureBookings(bookings: seq<Booking>, now: int): seq<Booking> {
    Keep(bookings, b => IsUpcoming(b, now))
  }

  function PastBookings(bookings: seq<Booking>, now: int): seq<Booking> {
    Keep(bookings, b => IsHistorical(b, now))
  }

  /** The bookings that neither list shows. */
  function UnshownBookings(bookings: seq<Booking>, now: int): seq<Booking> {
    Keep(bookings, b => !IsUpcoming(b, now) && !IsHistorical(b, now))
  }

  /** Filtering by a predicate no element satisfies leaves nothing. */
  lemma {:induction false} KeepNothing(s: seq<Booking>, p: Booking -> bool)
    requires forall b :: b in s ==> !p(b)
    ensures Keep(s, p) == []
  {
    if s != [] {
      KeepNothing(s[1..], p);
    }
  }

  /** `r` is obtained from `s` by deleting elements, keeping the order of the rest. */
  ghost predicate IsSubsequence(r: seq<Booking>, s: seq<Booking>)
    decreases |s|
  {
    r == [] ||
    (s != [] && ((r[0] == s[0] && IsSubsequence(r[1..], s[1..])) || IsSubsequence(r, s[1..])))
  }

  /** Filtering keeps order: the kept elements form a subsequence. */
  lemma {:induction false} KeepIsSubsequence(s: seq<Booking>, p: Booking -> bool)
    ensures IsSubsequence(Keep(s, p), s)
  {
    if s != [] {
      KeepIsSubsequence(s[1..], p);
      if p(s[0]) {
        var r := Keep(s, p);
        assert r[0] == s[0] && r[1..] == Keep(s[1..], p);
      }
    }
  }

  /** A subsequence never holds an element more often than the sequence it comes from. */
  lemma {:induction false} SubsequenceNoDuplication(r: seq<Booking>, s: seq<Booking>)
    requires IsSubsequence(r, s)
    ensures multiset(r) <= multiset(s)
    decreases |s|
  {
    if r != [] {
      assert s == [s[0]] + s[1..];
      if r[0] == s[0] && IsSubsequence(r[1..], s[1..]) {
        SubsequenceNoDuplication(r[1..], s[1..]);
        assert r == [r[0]] + r[1..];
      } else {
        SubsequenceNoDuplication(r, s[1..]);
      }
    }
  }

  /** Both lists are order-preserving selections of the fetched list that hold no booking more often than the fetched list does. */
  lemma PartitionsAreSubsequences(bookings: seq<Booking>, now: int)
    ensures IsSubsequence(FutureBookings(bookings, now), bookings)
    ensures IsSubsequence(PastBookings(bookings, now), bookings)
    ensures multiset(FutureBookings(bookings, now)) <= multiset(bookings)
    ensures multiset(PastBookings(bookings, now)) <= multiset(bookings)
  {
    KeepIsSubsequence(bookings, b => IsUpcoming(b, now));
    KeepIsSubsequence(bookings, b => IsHistorical(b, now));
    SubsequenceNoDuplication(FutureBookings(bookings, now), bookings);
    SubsequenceNoDuplication(PastBookings(bookings, now), bookings);
  }

  /** No booking is in both lists; upcoming ones are scheduled and in the future; cancelled ones are historical. */
  lemma PartitionDisjoint(bookings: seq<Booking>, now: int)
    ensures forall b :: !(b in FutureBookings(bookings, now) && b in PastBookings(bookings, now))
    ensures forall b :: b in FutureBookings(bookings, now) ==> b.status == "scheduled" && b.bookingDate > now
    ensures forall b :: b in bookings && b.status == "cancelled" ==> b in PastBookings(bookings, now)
  {
  }

  /** Where a single booking lands. */
  lemma Classification(b: Booking, now: int)
    ensures (b.status == "scheduled" || b.status == "cancelled") && b.bookingDate != now
      ==> (IsUpcoming(b, now) <==> !IsHistorical(b, now))
    ensures b.status != "scheduled" && b.status != "cancelled" && b.bookingDate > now
      ==> !IsUpcoming(b, now) && !IsHistorical(b, now)
    ensures b.status != "cancelled" && b.bookingDate == now
      ==> !IsUpcoming(b, now) && !IsHistorical(b, now)
  {
  }

  /** The three filters together split the fetched list: every booking is counted exactly once. */
  lemma {:induction false} PartitionSplitsList(bookings: seq<Booking>, now: int)
    ensures multiset(FutureBookings(bookings, now)) + multiset(PastBookings(bookings, now))
            + multiset(UnshownBookings(bookings, now)) == multiset(bookings)
  {
    if bookings != [] {
      PartitionSplitsList(bookings[1..], now);
      assert bookings == [bookings[0]] + bookings[1..];
    }
  }

  /** When every booking is scheduled or cancelled and none is dated exactly `now`, the two lists cover it. */
  lemma PartitionCovers(bookings: seq<Booking>, now: int)
    requires forall b :: b in bookings ==>
      (b.status == "scheduled" || b.status == "cancelled") && b.bookingDate != now
    ensures multiset(FutureBookings(bookings, now)) + multiset(PastBookings(bookings, now)) == multiset(bookings)
    ensures |FutureBookings(bookings, now)| + |PastBookings(bookings, now)| == |bookings|
  {
    PartitionSplitsList(bookings, now);
    KeepNothing(bookings, b => !IsUpcoming(b, now) && !IsHistorical(b, now));
    assert |multiset(FutureBookings(bookings, now)) + multiset(PastBookings(bookings, now))| == |multiset(bookings)|;
  }

  /** After cancelling `id` and fetching again, every booking carrying `id` is historical. */
  lemma CancelledIsHistorical(table: seq<Booking>, id: string, uid: string, now: int)
    ensures var shown := SelectByUser(UpdateStatus(table, id, "cancelled"), uid);
      forall b :: b in shown && b.id == id ==> b in PastBookings(shown, now)
    ensures (exists b :: b in table && b.id == id && b.userId == uid)
      ==> var shown := SelectByUser(UpdateStatus(table, id, "cancelled"), uid);
          exists c :: c in PastBookings(shown, now) && c.id == id
  {
    var after := UpdateStatus(table, id, "cancelled");
    var shown := SelectByUser(after, uid);
    UpdateStatusSpec(table, id, "cancelled");
    SelectByUserSpec(after, uid);
    forall b | b in shown && b.id == id ensures b.status == "cancelled" {
      var i :| 0 <= i < |after| && after[i] == b;
      assert table[i].id == id;
    }
    if exists b :: b in table && b.id == id && b.userId == uid {
      var b :| b in table && b.id == id && b.userId == uid;
      var i :| 0 <= i < |table| && table[i] == b;
      assert after[i] in after;
      assert after[i] in shown;
    }
  }

  /**
   * The filters read the clock once per booking. A scheduled booking dated
   * between a reading taken by the upcoming filter and a later one taken by
   * the historical filter is in both lists.
   */
  lemma ClockReadsBetweenFilters(b: Booking, now1: int, now2: int)
    requires b.status == "scheduled" && now1 < b.bookingDate < now2
    ensures b in FutureBookings([b], now1) && b in PastBookings([b], now2)
  {
  }

  /** What the page shows once rendered. */
  datatype Screen =
    | Loading
    | Listing(upcoming: seq<Booking>, historical: seq<Booking>, showsNoBookingsMessage: bool)

  function Render(bookings: seq<Booking>, loading: bool, now: int): Screen {
    if loading then Loading
    else Listing(FutureBookings(bookings, now), PastBookings(bookings, now), |bookings| == 0)
  }

  /** The "no bookings yet" message is shown exactly when the list is empty, and then no section is. */
  lemma NoBookingsMessage(bookings: seq<Booking>, now: int)
    ensures Render(bookings, false, now).showsNoBookingsMessage <==> bookings == []
    ensures bookings == [] ==> Render(bookings, false, now) == Listing([], [], true)
  {
  }

  /** A non-empty list can still render nothing: one scheduled booking dated exactly now. */
  lemma BlankListing(b: Booking, now: int)
    requires b.status == "scheduled" && b.bookingDate == now
    ensures Render([b], false, now) == Listing([], [], false)
  {
  }

  /** The browser's session storage, holding booking values under string keys. */
  class SessionStorage {
    var items: map<string, Booking>

    constructor ()
      ensures items == map[]
    {
      items := map[];
    }

    method SetItem(key: string, value: Booking)
      modifies this
      ensures items == old(items)[key := value]
    {
      items := items[key := value];
    }
  }

  /** The page's state for the signed-in user `userId`. */
  class BookingsList {
    const userId: string
    var bookings: seq<Booking>
    var loading: bool

    constructor (userId: string)
      ensures this.userId == userId && bookings == [] && loading
    {
      this.userId := userId;
      bookings := [];
      loading := true;
    }

    /** `fetchBookings` once the table has answered `resp`. */
    method FetchBookings(resp: Response<seq<Booking>>)
      modifies this
      ensures resp.error.Some? ==> bookings == old(bookings)
      ensures resp.error.None? ==> bookings == (if resp.data.Some? then resp.data.value else [])
      ensures !loading
    {
      if resp.error.None? {
        bookings := match resp.data
          case Some(rows) => rows
          case None => [];
      }
      loading := false;
    }

    /** The effect run on mounting: fetch the user's bookings from `table`, which may answer with `failure`. */
    method Load(table: seq<Booking>, failure: Option<StoreError>)
      modifies this
      ensures failure.None? ==> bookings == SelectByUser(table, userId)
      ensures failure.Some? ==> bookings == old(bookings)
      ensures !loading
    {
      FetchBookings(Query(table, userId, failure));
    }

    /**
     * `handleCancelBooking`: set the status of the rows carrying `bookingId` to
     * cancelled, then re-fetch. Returns the table afterwards.
     */
    method CancelBooking(table: seq<Booking>, bookingId: string,
                         updateFailure: Option<StoreError>, fetchFailure: Option<StoreError>)
      returns (after: seq<Booking>)
      modifies this
      ensures updateFailure.Some? ==>
        after == table && bookings == old(bookings) && loading == old(loading)
      ensures updateFailure.None? ==>
        after == UpdateStatus(table, bookingId, "cancelled") && !loading
        && bookings == (if fetchFailure.None? then SelectByUser(after, userId) else old(bookings))
    {
      if updateFailure.Some? {
        after := table;
        return;
      }
      after := UpdateStatus(table, bookingId, "cancelled");
      FetchBookings(Query(after, userId, fetchFailure));
    }

    /** `handleReschedule`: stash the booking and go to the location step; the list stays as it is. */
    method Reschedule(booking: Booking, storage: SessionStorage) returns (nav: Navigation<()>)
      modifies storage
      ensures storage.items == old(storage.items)[RescheduleKey := booking]
      ensures nav == Navigation("/select-location", ())
      ensures bookings == old(bookings) && loading == old(loading)
    {
      storage.SetItem(RescheduleKey, booking);
      nav := Navigation("/select-location", ());
    }
  }
}
