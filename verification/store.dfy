/**
 * The persisted state the handlers read and write, as an in-memory store:
 * the `listings` table keyed by its `id` column, the `listing_payments` and
 * `images` tables in insertion order, and the local `users` mirror keyed by
 * user id. The equality filters of the query builder (`.eq(column, value)`)
 * become key lookups and pointwise rewrites over these collections.
 */
module Db {
  import opened Common

  // Values the code writes into the `status` columns.
  const Published: string := "published"
  const Draft: string := "draft"
  const PaymentPending: string := "pending"
  const PaymentCompleted: string := "completed"
  const PaymentExpired: string := "expired"

  /** One row of `listings`. Address and contact fields are optional columns. */
  datatype Listing = Listing(
    id: string,
    userId: string,
    title: string,
    description: string,
    price: real,
    category: string,
    status: string,
    isPaid: bool,
    expiresAt: int,
    images: seq<string>,
    city: Option<string>,
    state: Option<string>,
    street: Option<string>,
    number: Option<string>,
    zipCode: Option<string>,
    contactInfo: Option<string>,
    paymentStatus: Option<string>,
    stripeSessionId: Option<string>,
    paymentSessionId: Option<string>,
    planType: Option<string>,
    updatedAt: Option<int>)

  /** One row of `listing_payments`. */
  datatype Payment = Payment(
    listingId: string,
    userId: string,
    sessionId: string,
    amount: real,
    status: string,
    currency: Option<string>,
    plan: Option<string>)

  /** One row of `images`. */
  datatype ImageRow = ImageRow(listingId: string, url: string)

  /** One row of the local `users` mirror. */
  datatype UserRow = UserRow(id: string, email: string, name: string, phone: string)

  datatype Store = Store(
    listings: map<string, Listing>,
    payments: seq<Payment>,
    images: seq<ImageRow>,
    users: map<string, UserRow>)

  /** Every listing is stored under its own `id`. */
  predicate WellKeyed(s: Store) {
    forall k :: k in s.listings ==> s.listings[k].id == k
  }

  /**
   * Two versions of a listing agree on everything the owner entered: only
   * the lifecycle columns (status, payment flags, expiry, session ids, plan)
   * may differ.
   */
  predicate SameContent(a: Listing, b: Listing) {
    && a.id == b.id && a.userId == b.userId
    && a.title == b.title && a.description == b.description
    && a.price == b.price && a.category == b.category
    && a.images == b.images
    && a.city == b.city && a.state == b.state && a.street == b.street
    && a.number == b.number && a.zipCode == b.zipCode && a.contactInfo == b.contactInfo
    && a.updatedAt == b.updatedAt
  }

  /** `r` differs from `s` at most in the listing stored under `id`. */
  predicate OnlyListingChanged(s: Store, r: Store, id: string) {
    && r.listings.Keys == s.listings.Keys
    && (forall k :: k in s.listings && k != id ==> r.listings[k] == s.listings[k])
    && r.payments == s.payments && r.images == s.images && r.users == s.users
  }

  /** Replaces the row stored under `id`, leaving every other row alone. */
  function PutListing(s: Store, id: string, l: Listing): (r: Store)
    requires id in s.listings
    ensures OnlyListingChanged(s, r, id)
    ensures r.listings[id] == l
    ensures WellKeyed(s) && l.id == id ==> WellKeyed(r)
  {
    s.(listings := s.listings[id := l])
  }

  /** Adds a row under a fresh `id`, leaving every other row alone. */
  function InsertListing(s: Store, l: Listing): (r: Store)
    requires l.id !in s.listings
    ensures r.listings.Keys == s.listings.Keys + {l.id}
    ensures r.listings[l.id] == l
    ensures forall k :: k in s.listings ==> r.listings[k] == s.listings[k]
    ensures r.payments == s.payments && r.images == s.images && r.users == s.users
    ensures WellKeyed(s) ==> WellKeyed(r)
  {
    s.(listings := s.listings[l.id := l])
  }

  /**
   * `select ... .eq('id', id).eq('user_id', user?.id).single()`: the listing
   * with that id, provided it belongs to the signed-in user. With no user
   * the filter compares against `undefined` and matches nothing.
   */
  function OwnedListing(s: Store, id: string, user: Option<string>): (r: Option<Listing>)
    ensures r.Some? <==> id in s.listings && user.Some? && s.listings[id].userId == user.value
    ensures r.Some? ==> r.value == s.listings[id]
  {
    if id in s.listings && user.Some? && s.listings[id].userId == user.value then
      Some(s.listings[id])
    else
      None
  }

  /**
   * `update({ status }).eq('stripe_session_id', sid)` on `listing_payments`:
   * every row of that session gets the new status; every other row, and
   * every other column, is kept.
   */
  function SetPaymentStatus(ps: seq<Payment>, sid: string, status: string): (r: seq<Payment>)
    ensures |r| == |ps|
    ensures forall i :: 0 <= i < |ps| && ps[i].sessionId == sid ==> r[i] == ps[i].(status := status)
    ensures forall i :: 0 <= i < |ps| && ps[i].sessionId != sid ==> r[i] == ps[i]
  {
    if ps == [] then
      []
    else
      var head := if ps[0].sessionId == sid then ps[0].(status := status) else ps[0];
      [head] + SetPaymentStatus(ps[1..], sid, status)
  }

  /** Setting the same status twice is the same as setting it once. */
  lemma SetPaymentStatusIdempotent(ps: seq<Payment>, sid: string, status: string)
    ensures SetPaymentStatus(SetPaymentStatus(ps, sid, status), sid, status) == SetPaymentStatus(ps, sid, status)
  {
  }

  /** Of two status writes for the same session, the later one wins. */
  lemma SetPaymentStatusLastWins(ps: seq<Payment>, sid: string, first: string, second: string)
    ensures SetPaymentStatus(SetPaymentStatus(ps, sid, first), sid, second) == SetPaymentStatus(ps, sid, second)
  {
  }

  /** A listing the owner has published without paying. */
  predicate IsFreePublished(l: Listing, user: string) {
    l.userId == user && !l.isPaid && l.status == Published
  }

  /** Ids of the rows `.eq('user_id', user).eq('is_paid', false).eq('status', 'published')` returns. */
  function FreeListings(s: Store, user: string): set<string> {
    set k | k in s.listings && IsFreePublished(s.listings[k], user)
  }

  /** `freeListings.length`: how many published, unpaid listings the user owns. */
  function FreeCount(s: Store, user: string): nat {
    |FreeListings(s, user)|
  }

  /**
   * Turning one of the user's listings into a published, unpaid one raises
   * their free count by exactly one; every other owner's count is kept.
   */
  lemma {:induction false} FreeCountAfterFreePublish(s: Store, id: string, l: Listing, user: string)
    requires id in s.listings && s.listings[id].userId == user
    requires !IsFreePublished(s.listings[id], user) && IsFreePublished(l, user)
    ensures FreeCount(PutListing(s, id, l), user) == FreeCount(s, user) + 1
    ensures forall other :: other != user ==> FreeCount(PutListing(s, id, l), other) == FreeCount(s, other)
  {
    var r := PutListing(s, id, l);
    assert FreeListings(r, user) == FreeListings(s, user) + {id};
    assert id !in FreeListings(s, user);
    forall other | other != user
      ensures FreeCount(r, other) == FreeCount(s, other)
    {
      assert FreeListings(r, other) == FreeListings(s, other);
    }
  }

  /** Inserting a published, unpaid listing raises its owner's free count by exactly one. */
  lemma {:induction false} FreeCountAfterInsert(s: Store, l: Listing)
    requires l.id !in s.listings && IsFreePublished(l, l.userId)
    ensures FreeCount(InsertListing(s, l), l.userId) == FreeCount(s, l.userId) + 1
  {
    var r := InsertListing(s, l);
    var before, after := FreeListings(s, l.userId), FreeListings(r, l.userId);
    forall k | k in after ensures k in before + {l.id} {
      if k != l.id {
        assert r.listings[k] == s.listings[k];
      }
    }
    forall k | k in before + {l.id} ensures k in after {
      if k != l.id {
        assert r.listings[k] == s.listings[k];
      }
    }
    assert after == before + {l.id};
    assert l.id !in before;
  }

  /** Inserting a listing leaves every other user's free count alone. */
  lemma {:induction false} FreeCountOthersAfterInsert(s: Store, l: Listing, other: string)
    requires l.id !in s.listings && other != l.userId
    ensures FreeCount(InsertListing(s, l), other) == FreeCount(s, other)
  {
    var r := InsertListing(s, l);
    forall k | k in FreeListings(r, other) ensures k in FreeListings(s, other) {
      assert k != l.id;
      assert r.listings[k] == s.listings[k];
    }
    assert FreeListings(r, other) == FreeListings(s, other);
  }
}
