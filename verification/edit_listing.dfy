/**
 * Submitting the edit-listing form (`onSubmit` in
 * src/pages/EditListing.tsx). The listing itself is loaded exactly as the
 * payment page loads it (`PaymentPage.FetchListing`).
 */
module EditListing {
  import opened Common
  import opened Text
  import opened Db
  import opened ListingForm

  /** `[...(listing.images || []), ...newImageUrls]`. */
  function MergeImages(existing: seq<string>, added: seq<string>): (r: seq<string>)
    ensures |r| == |existing| + |added|
    ensures r[..|existing|] == existing && r[|existing|..] == added
  {
    existing + added
  }

  /** A blank optional field is omitted from the update, so the stored value stays. */
  function Kept(stored: Option<string>, v: string): (r: Option<string>)
    ensures IsBlank(v) ==> r == stored
    ensures !IsBlank(v) ==> r == Some(Trim(v))
  {
    var f := OptionalField(v);
    if f.Some? then f else stored
  }

  /**
   * The row after the update: the owner-entered columns from the form, the
   * loaded images followed by the new ones, `updated_at` set; every
   * lifecycle column is left as stored.
   */
  function ApplyEdit(stored: Listing, loadedImages: seq<string>, d: FormData, added: seq<string>, now: int): (l: Listing)
    requires EditValid(d)
    ensures l.id == stored.id && l.userId == stored.userId
    ensures l.title == Trim(d.title) && l.description == Trim(d.description)
    ensures l.price == d.price.value && l.category == d.category
    ensures l.images == MergeImages(loadedImages, added)
    ensures l.updatedAt == Some(now)
    ensures l.city == Kept(stored.city, d.city) && l.state == Kept(stored.state, d.state)
    ensures l.street == Kept(stored.street, d.street) && l.number == Kept(stored.number, d.number)
    ensures l.zipCode == Kept(stored.zipCode, d.zipCode) && l.contactInfo == Kept(stored.contactInfo, d.contactInfo)
    ensures l.status == stored.status && l.isPaid == stored.isPaid && l.expiresAt == stored.expiresAt
    ensures l.paymentStatus == stored.paymentStatus && l.stripeSessionId == stored.stripeSessionId
    ensures l.paymentSessionId == stored.paymentSessionId && l.planType == stored.planType
  {
    stored.(title := Trim(d.title), description := Trim(d.description), price := d.price.value,
            category := d.category, images := MergeImages(loadedImages, added), updatedAt := Some(now),
            city := Kept(stored.city, d.city), state := Kept(stored.state, d.state),
            street := Kept(stored.street, d.street), number := Kept(stored.number, d.number),
            zipCode := Kept(stored.zipCode, d.zipCode), contactInfo := Kept(stored.contactInfo, d.contactInfo))
  }

  /** The store after the submission, and whether the page moves on to the user's listings. */
  datatype Edited = Edited(store: Store, navigated: bool)

  /**
   * `onSubmit`, called by the form only with data its rules accept.
   * `listing` is the row loaded when the page opened; `uploads[i]` is new
   * file `i`'s url or `None`. The update is filtered by id and owner; one
   * that matches no row reports no error.
   */
  function OnSubmit(s: Store, listing: Option<Listing>, user: Option<string>, d: FormData, now: int,
                    uploads: seq<Option<string>>, update: Call): (r: Edited)
    requires EditValid(d)
    ensures listing.None? || user.None? ==> r == Edited(s, false)
    ensures r.navigated <==> listing.Some? && user.Some? && update == Ok
    ensures r.store != s ==>
      && r.navigated
      && listing.value.id in s.listings && s.listings[listing.value.id].userId == user.value
      && OnlyListingChanged(s, r.store, listing.value.id)
      && r.store.listings[listing.value.id]
         == ApplyEdit(s.listings[listing.value.id], listing.value.images, d, Successes(uploads), now)
    ensures r.navigated && listing.value.id in s.listings && s.listings[listing.value.id].userId == user.value ==>
      r.store.listings[listing.value.id].images == listing.value.images + Successes(uploads)
    ensures WellKeyed(s) ==> WellKeyed(r.store)
  {
    if listing.None? || user.None? then Edited(s, false)
    else
      match update
      case Ok =>
        var id := listing.value.id;
        if id in s.listings && s.listings[id].userId == user.value then
          Edited(PutListing(s, id, ApplyEdit(s.listings[id], listing.value.images, d, Successes(uploads), now)), true)
        else
          Edited(s, true)
      case _ => Edited(s, false)
  }

  /** Editing never changes anybody's count of free publications. */
  lemma {:induction false} EditKeepsFreeCount(s: Store, listing: Option<Listing>, user: Option<string>, d: FormData,
                                              now: int, uploads: seq<Option<string>>, update: Call, who: string)
    requires EditValid(d)
    ensures FreeCount(OnSubmit(s, listing, user, d, now, uploads, update).store, who) == FreeCount(s, who)
  {
    var r := OnSubmit(s, listing, user, d, now, uploads, update).store;
    if r != s {
      var id := listing.value.id;
      forall k | k in s.listings ensures IsFreePublished(r.listings[k], who) == IsFreePublished(s.listings[k], who) {
        if k == id {
          assert r.listings[k].status == s.listings[k].status;
        }
      }
      assert FreeListings(r, who) == FreeListings(s, who);
    }
  }
}
