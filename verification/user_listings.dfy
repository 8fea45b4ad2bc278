/**
 * The user's listings page (src/pages/UserListings.tsx): deleting a
 * listing after confirmation, and the active and pending counts.
 */
module UserListings {
  import opened ListingStatus

  /** `listings.filter(listing => listing.id !== id)`. */
  function WithoutId(rows: seq<Row>, id: string): (r: seq<Row>)
    ensures |r| <= |rows|
    ensures forall x :: x in r ==> x in rows && x.id != id
    ensures forall i :: 0 <= i < |rows| && rows[i].id != id ==> rows[i] in r
  {
    if rows == [] then []
    else
      var rest := WithoutId(rows[1..], id);
      assert forall i :: 1 <= i < |rows| ==> rows[i] == rows[1..][i - 1];
      if rows[0].id != id then [rows[0]] + rest else rest
  }

  /** `handleDeleteListing(id)`: `confirmed` is the answer to the confirmation dialog. */
  function DeleteListing(rows: seq<Row>, id: string, confirmed: bool): (r: seq<Row>)
    ensures !confirmed ==> r == rows
    ensures confirmed ==> (forall x :: x in r ==> x in rows && x.id != id)
    ensures confirmed ==> forall i :: 0 <= i < |rows| && rows[i].id != id ==> rows[i] in r
  {
    if confirmed then WithoutId(rows, id) else rows
  }

  /** Deleting keeps the other rows in order: it distributes over concatenation. */
  lemma {:induction false} WithoutIdAppend(a: seq<Row>, b: seq<Row>, id: string)
    ensures WithoutId(a + b, id) == WithoutId(a, id) + WithoutId(b, id)
    decreases |a|
  {
    if a == [] {
      assert a + b == b;
    } else {
      assert (a + b)[0] == a[0] && (a + b)[1..] == a[1..] + b;
      WithoutIdAppend(a[1..], b, id);
    }
  }

  /** Deleting the same id twice is the same as deleting it once. */
  lemma {:induction false} DeleteIdempotent(rows: seq<Row>, id: string)
    ensures WithoutId(WithoutId(rows, id), id) == WithoutId(rows, id)
    decreases |rows|
  {
    if rows != [] {
      DeleteIdempotent(rows[1..], id);
    }
  }

  /** A row whose id is not the deleted one is counted as before; only the deleted rows leave the counts. */
  lemma {:induction false} DeleteLowersCounts(rows: seq<Row>, id: string, status: string)
    ensures CountStatus(WithoutId(rows, id), status) <= CountStatus(rows, status)
    ensures (forall i :: 0 <= i < |rows| ==> rows[i].id != id) ==>
              CountStatus(WithoutId(rows, id), status) == CountStatus(rows, status)
    decreases |rows|
  {
    if rows != [] {
      DeleteLowersCounts(rows[1..], id, status);
      assert (forall i :: 0 <= i < |rows| ==> rows[i].id != id) ==>
             (forall i :: 0 <= i < |rows[1..]| ==> rows[1..][i].id != id);
    }
  }

  /** The two counters of the page. */
  datatype Counters = Counters(active: nat, pending: nat)

  function PageCounters(rows: seq<Row>): (c: Counters)
    ensures c.active + c.pending <= |rows|
    ensures c.active == CountStatus(rows, Active) && c.pending == CountStatus(rows, Pending)
  {
    CountsDisjoint(rows, Active, Pending);
    Counters(CountStatus(rows, Active), CountStatus(rows, Pending))
  }
}
