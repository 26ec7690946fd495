/**
 * The hosted `bookings` table, seen abstractly: a sequence of rows with a
 * select-by-owner query ordered by booking date (newest first) and an update
 * of the status of the rows that carry a given id. The client library that
 * talks to the hosting service is not modelled; a remote failure is an input.
 */
module BookingTable {
  import opened Common

  /** One row of the table. `bookingDate` is the instant the booking date stands for. */
  datatype Booking = Booking(
    id: string,
    userId: string,
    technicianName: string,
    city: string,
    neighborhood: string,
    bookingDate: int,
    bookingTime: string,
    status: string,
    createdAt: string)

  datatype StoreError = StoreError(message: string)

  /** What a call to the table returns: rows (possibly null) and an error (possibly null). */
  datatype Response<+T> = Response(data: Option<T>, error: Option<StoreError>)

  /** Rows in non-increasing order of booking date. */
  ghost predicate SortedByDateDesc(s: seq<Booking>) {
    forall i, j :: 0 <= i < j < |s| ==> s[i].bookingDate >= s[j].bookingDate
  }

  /** The rows owned by `uid`, in table order. */
  function OwnedBy(rows: seq<Booking>, uid: string): (r: seq<Booking>)
    ensures |r| <= |rows|
    ensures forall b :: b in r <==> b in rows && b.userId == uid
    ensures forall b :: multiset(r)[b] == if b.userId == uid then multiset(rows)[b] else 0
  {
    assert rows != [] ==> rows == [rows[0]] + rows[1..];
    if rows == [] then []
    else if rows[0].userId == uid then [rows[0]] + OwnedBy(rows[1..], uid)
    else OwnedBy(rows[1..], uid)
  }

  /** Places `b` in front of the first row that is not dated later than it. */
  function InsertByDate(b: Booking, s: seq<Booking>): (r: seq<Booking>)
    requires SortedByDateDesc(s)
    ensures SortedByDateDesc(r)
    ensures multiset(r) == multiset(s) + multiset{b}
  {
    if s == [] then [b]
    else if b.bookingDate >= s[0].bookingDate then [b] + s
    else
      var t := InsertByDate(b, s[1..]);
      assert s == [s[0]] + s[1..];
      assert forall x :: x in t ==> x.bookingDate <= s[0].bookingDate by {
        forall x | x in t ensures x.bookingDate <= s[0].bookingDate {
          assert x in multiset(t);
          assert x in multiset(s[1..]) || x == b;
        }
      }
      [s[0]] + t
  }

  /** The rows of `s` reordered newest first. */
  function SortByDateDesc(s: seq<Booking>): (r: seq<Booking>)
    ensures SortedByDateDesc(r)
    ensures multiset(r) == multiset(s)
  {
    if s == [] then []
    else
      assert s == [s[0]] + s[1..];
      InsertByDate(s[0], SortByDateDesc(s[1..]))
  }

  /** `select * ... eq("user_id", uid) ... order("booking_date", descending)` over the table. */
  function SelectByUser(rows: seq<Booking>, uid: string): seq<Booking> {
    SortByDateDesc(OwnedBy(rows, uid))
  }

  /** The answer to the select query: the selected rows, or the failure. */
  function Query(rows: seq<Booking>, uid: string, failure: Option<StoreError>): Response<seq<Booking>> {
    match failure
    case Some(e) => Response(None, Some(e))
    case None => Response(Some(SelectByUser(rows, uid)), None)
  }

  /** `update({ status }) ... eq("id", id)`: every row carrying `id` gets the new status. */
  function UpdateStatus(rows: seq<Booking>, id: string, status: string): (r: seq<Booking>)
    ensures |r| == |rows|
  {
    if rows == [] then []
    else [if rows[0].id == id then rows[0].(status := status) else rows[0]]
         + UpdateStatus(rows[1..], id, status)
  }

  /** The select query returns exactly the owner's rows, newest first, each as many times as it is stored. */
  lemma SelectByUserSpec(rows: seq<Booking>, uid: string)
    ensures var r := SelectByUser(rows, uid);
      SortedByDateDesc(r)
      && multiset(r) == multiset(OwnedBy(rows, uid))
      && (forall b :: multiset(r)[b] == if b.userId == uid then multiset(rows)[b] else 0)
      && (forall b :: b in r <==> b in rows && b.userId == uid)
  {
    var r := SelectByUser(rows, uid);
    forall b ensures b in r <==> b in OwnedBy(rows, uid) {
      assert b in r <==> b in multiset(r);
      assert b in OwnedBy(rows, uid) <==> b in multiset(OwnedBy(rows, uid));
    }
  }

  /** The update changes the status of the rows carrying `id` and nothing else. */
  lemma {:induction false} UpdateStatusSpec(rows: seq<Booking>, id: string, status: string)
    ensures var r := UpdateStatus(rows, id, status);
      |r| == |rows|
      && forall i :: 0 <= i < |rows| ==>
           if rows[i].id == id then r[i] == rows[i].(status := status) else r[i] == rows[i]
  {
    if rows != [] {
      UpdateStatusSpec(rows[1..], id, status);
      var r := UpdateStatus(rows, id, status);
      forall i | 0 < i < |rows|
        ensures if rows[i].id == id then r[i] == rows[i].(status := status) else r[i] == rows[i]
      {
        assert r[i] == UpdateStatus(rows[1..], id, status)[i - 1];
        assert rows[i] == rows[1..][i - 1];
      }
    }
  }

  /** Repeating the same status update changes nothing more. */
  lemma {:induction false} UpdateStatusIdempotent(rows: seq<Booking>, id: string, status: string)
    ensures UpdateStatus(UpdateStatus(rows, id, status), id, status) == UpdateStatus(rows, id, status)
  {
    if rows != [] {
      UpdateStatusIdempotent(rows[1..], id, status);
      var once := UpdateStatus(rows, id, status);
      assert once[1..] == UpdateStatus(rows[1..], id, status);
    }
  }
}
