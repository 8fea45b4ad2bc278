/**
 * The status badge and the per-status counts that the user's listings page
 * (src/pages/UserListings.tsx) and the admin dashboard
 * (src/pages/AdminDashboard.tsx) both show, over the same row shape. The
 * two pages define identical `getStatusLabel` and `getStatusColor`.
 */
module ListingStatus {
  /** A listing row of the two pages; `status` is `active`, `pending` or `expired`, but any text can arrive. */
  datatype Row = Row(id: string, title: string, price: real, status: string)

  const Active: string := "active"
  const Pending: string := "pending"
  const Expired: string := "expired"
  const UnknownLabel: string := "Desconhecido"
  const GrayBadge: string := "bg-gray-100 text-gray-800"

  predicate Known(status: string) {
    status == Active || status == Pending || status == Expired
  }

  /** `getStatusLabel`. */
  function Label(status: string): (r: string)
    ensures Known(status) <==> r != UnknownLabel
  {
    if status == Active then "Ativo"
    else if status == Pending then "Pendente"
    else if status == Expired then "Expirado"
    else UnknownLabel
  }

  /** `getStatusColor`. */
  function Color(status: string): (r: string)
    ensures Known(status) <==> r != GrayBadge
  {
    if status == Active then "bg-green-100 text-green-800"
    else if status == Pending then "bg-yellow-100 text-yellow-800"
    else if status == Expired then "bg-red-100 text-red-800"
    else GrayBadge
  }

  /** Label and colour switch over the same keys: one is the default exactly when the other is, and different known statuses look different. */
  lemma LabelAndColorAgree(a: string, b: string)
    ensures Label(a) == UnknownLabel <==> Color(a) == GrayBadge
    ensures Known(a) && Known(b) && a != b ==> Label(a) != Label(b) && Color(a) != Color(b)
  {
  }

  /** `listings.filter(l => l.status === status).length`. */
  function CountStatus(rows: seq<Row>, status: string): (n: nat)
    ensures n <= |rows|
  {
    if rows == [] then 0
    else (if rows[0].status == status then 1 else 0) + CountStatus(rows[1..], status)
  }

  /** Counting over two lists adds up. */
  lemma {:induction false} CountStatusAppend(a: seq<Row>, b: seq<Row>, status: string)
    ensures CountStatus(a + b, status) == CountStatus(a, status) + CountStatus(b, status)
    decreases |a|
  {
    if a == [] {
      assert a + b == b;
    } else {
      assert (a + b)[0] == a[0] && (a + b)[1..] == a[1..] + b;
      CountStatusAppend(a[1..], b, status);
    }
  }

  /** Rows of two different statuses are counted apart: the two counts never exceed the rows. */
  lemma {:induction false} CountsDisjoint(rows: seq<Row>, s1: string, s2: string)
    requires s1 != s2
    ensures CountStatus(rows, s1) + CountStatus(rows, s2) <= |rows|
    decreases |rows|
  {
    if rows != [] {
      CountsDisjoint(rows[1..], s1, s2);
    }
  }
}
