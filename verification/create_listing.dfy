/**
 * Submitting the create-listing form (`onSubmit` in
 * src/pages/CreateListing.tsx): make sure the signed-in user has a row in
 * the local users table, insert the listing already published and unpaid
 * for thirty days, upload the selected images, store their urls, and move
 * on to the payment page.
 */
module CreateListing {
  import opened Common
  import opened Text
  import opened Db
  import opened ListingForm

  /** The signed-in user as the auth client reports it. */
  datatype AuthUser = AuthUser(id: string, email: Option<string>, name: Option<string>, phone: Option<string>)

  /** The outcomes of the awaited calls, in order; `uploads[i]` is file `i`'s url or `None`. */
  datatype CreateCalls = CreateCalls(
    userLookup: Call,
    userInsert: Call,
    listingInsert: Call,
    uploads: seq<Option<string>>,
    imagesUpdate: Call)

  /** The store after the submission, and the page it navigates to, if any. */
  datatype Submitted = Submitted(store: Store, navigate: Option<string>)

  const ListingDays: int := 30

  /** The users-table row created for a user missing from it. */
  function MirrorRow(u: AuthUser): (r: UserRow)
    ensures r.id == u.id
    ensures r.email == (if Truthy(u.email) then u.email.value else "")
    ensures r.name == (if Truthy(u.name) then u.name.value else "Usuário")
    ensures r.phone == (if Truthy(u.phone) then u.phone.value else "")
  {
    UserRow(u.id, OrElse(u.email, ""), OrElse(u.name, "Usuário"), OrElse(u.phone, ""))
  }

  /** The row `onSubmit` inserts, under the id the database assigns. */
  function NewRecord(d: FormData, userId: string, id: string, now: int): (l: Listing)
    requires CreateValid(d)
    ensures l.id == id && l.userId == userId
    ensures l.title == Trim(d.title) && l.description == Trim(d.description)
    ensures l.price == d.price.value && l.category == d.category
    ensures IsFreePublished(l, userId) && l.images == []
    ensures l.expiresAt == now + ListingDays * DayMs
    ensures l.city == OptionalField(d.city) && l.state == OptionalField(d.state)
    ensures l.street == OptionalField(d.street) && l.number == OptionalField(d.number)
    ensures l.zipCode == OptionalField(d.zipCode) && l.contactInfo == OptionalField(d.contactInfo)
    ensures l.paymentStatus.None? && l.stripeSessionId.None? && l.paymentSessionId.None?
    ensures l.planType.None? && l.updatedAt.None?
  {
    Listing(id, userId, Trim(d.title), Trim(d.description), d.price.value, d.category, Published, false,
            AddDays(now, ListingDays), [],
            OptionalField(d.city), OptionalField(d.state), OptionalField(d.street), OptionalField(d.number),
            OptionalField(d.zipCode), OptionalField(d.contactInfo), None, None, None, None, None)
  }

  /**
   * The user-mirror step: a failed lookup (including no such row) leads to
   * an insert, and a failed insert aborts. `None` means the submission
   * stops here.
   */
  function EnsureUser(s: Store, u: AuthUser, lookup: Call, insert: Call): (r: Option<Store>)
    ensures r.Some? ==> r.value.listings == s.listings && r.value.payments == s.payments && r.value.images == s.images
    ensures r.Some? ==> u.id in r.value.users
    ensures lookup == Ok && u.id in s.users ==> r == Some(s)
    ensures r.Some? && r.value.users != s.users ==> u.id !in s.users && r.value.users == s.users[u.id := MirrorRow(u)]
    ensures r.None? <==> lookup == Threw || (!(lookup == Ok && u.id in s.users) && (insert != Ok || u.id in s.users))
  {
    match lookup
    case Threw => None
    case _ =>
      if lookup == Ok && u.id in s.users then Some(s)
      else
        match insert
        case Ok => if u.id in s.users then None else Some(s.(users := s.users[u.id := MirrorRow(u)]))
        case _ => None
  }

  /**
   * `onSubmit`, called by the form only with data its rules accept. An
   * insert under an id already taken fails like any other insert error.
   */
  function OnSubmit(s: Store, user: Option<AuthUser>, d: FormData, newId: string, now: int, c: CreateCalls): (r: Submitted)
    requires CreateValid(d)
    ensures user.None? ==> r == Submitted(s, None)
    ensures r.store.payments == s.payments && r.store.images == s.images
    ensures forall k :: k in s.listings ==> k in r.store.listings && r.store.listings[k] == s.listings[k]
    ensures r.store.listings.Keys <= s.listings.Keys + {newId}
    ensures r.store.users == s.users || (user.Some? && user.value.id !in s.users
                                         && r.store.users == s.users[user.value.id := MirrorRow(user.value)])
    ensures newId in r.store.listings && newId !in s.listings ==>
      var l := r.store.listings[newId];
      && l.(images := []) == NewRecord(d, user.value.id, newId, now)
      && (l.images == [] || l.images == Successes(c.uploads))
    ensures r.navigate.Some? ==>
      && r.navigate.value == "/payment/" + newId
      && newId !in s.listings && newId in r.store.listings
      && r.store.listings[newId].images == (if c.imagesUpdate == Ok then Successes(c.uploads) else [])
    ensures r.navigate.Some? <==>
      && user.Some? && EnsureUser(s, user.value, c.userLookup, c.userInsert).Some?
      && c.listingInsert == Ok && newId !in s.listings
      && (Successes(c.uploads) == [] || c.imagesUpdate != Threw)
  {
    if user.None? then Submitted(s, None)
    else
      var u := user.value;
      var mirrored := EnsureUser(s, u, c.userLookup, c.userInsert);
      if mirrored.None? then Submitted(s, None)
      else
        var s1 := mirrored.value;
        match c.listingInsert
        case Ok =>
          if newId in s1.listings then Submitted(s1, None)
          else
            var s2 := InsertListing(s1, NewRecord(d, u.id, newId, now));
            var urls := Successes(c.uploads);
            if |urls| == 0 then Submitted(s2, Some("/payment/" + newId))
            else
              (match c.imagesUpdate
               case Ok =>
                 var s3 := PutListing(s2, newId, s2.listings[newId].(images := urls));
                 Submitted(s3, Some("/payment/" + newId))
               case Failed => Submitted(s2, Some("/payment/" + newId))
               case Threw => Submitted(s2, None))
        case _ => Submitted(s1, None)
  }

  /**
   * A created listing is already a free publication: it counts against its
   * owner's quota of five before any plan is chosen.
   */
  lemma {:induction false} CreateCountsTowardQuota(s: Store, u: AuthUser, d: FormData, newId: string, now: int, c: CreateCalls)
    requires CreateValid(d)
    requires c.userLookup == Ok && u.id in s.users
    requires c.listingInsert == Ok && newId !in s.listings && Successes(c.uploads) == []
    ensures FreeCount(OnSubmit(s, Some(u), d, newId, now, c).store, u.id) == FreeCount(s, u.id) + 1
  {
    FreeCountAfterInsert(s, NewRecord(d, u.id, newId, now));
  }
}
