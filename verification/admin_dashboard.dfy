/**
 * The admin dashboard's figures (src/pages/AdminDashboard.tsx): the number
 * of listings, the active and pending counts, and a revenue of 5 per
 * active listing, summed with a left fold.
 */
module AdminDashboard {
  import opened ListingStatus

  const RevenuePerActive: nat := 5

  datatype Stats = Stats(totalListings: nat, activeListings: nat, pendingListings: nat, totalRevenue: nat)

  /** `reduce((sum, l) => sum + (l.status === 'active' ? 5 : 0), acc)`. */
  function Revenue(rows: seq<Row>, acc: nat): nat
    decreases |rows|
  {
    if rows == [] then acc
    else Revenue(rows[1..], acc + (if rows[0].status == Active then RevenuePerActive else 0))
  }

  /** The fold adds 5 for every active row and nothing for any other. */
  lemma {:induction false} RevenueIsFivePerActive(rows: seq<Row>, acc: nat)
    ensures Revenue(rows, acc) == acc + RevenuePerActive * CountStatus(rows, Active)
    decreases |rows|
  {
    if rows != [] {
      RevenueIsFivePerActive(rows[1..], acc + (if rows[0].status == Active then RevenuePerActive else 0));
    }
  }

  /** The dashboard's figures for `rows`. */
  function ComputeStats(rows: seq<Row>): (s: Stats)
    ensures s.totalListings == |rows|
    ensures s.activeListings == CountStatus(rows, Active) && s.pendingListings == CountStatus(rows, Pending)
    ensures s.activeListings + s.pendingListings <= s.totalListings
    ensures s.totalRevenue == RevenuePerActive * s.activeListings
  {
    RevenueIsFivePerActive(rows, 0);
    CountsDisjoint(rows, Active, Pending);
    Stats(|rows|, CountStatus(rows, Active), CountStatus(rows, Pending), Revenue(rows, 0))
  }

  /** Revenue over two lists of listings adds up. */
  lemma RevenueAppend(a: seq<Row>, b: seq<Row>)
    ensures ComputeStats(a + b).totalRevenue == ComputeStats(a).totalRevenue + ComputeStats(b).totalRevenue
  {
    CountStatusAppend(a, b, Active);
  }
}
