/**
 * The browser-side data helpers of src/lib/supabase.ts: the configuration
 * guard run when the module loads, `handleSupabaseError`, `createListing`,
 * `uploadListingImages` and `updateListingPaymentStatus`.
 */
module SupabaseClient {
  import opened Common
  import opened Db
  import Reconcile
  import ListingForm

  /** The module loads only when both the project url and the anon key are set; otherwise it throws. */
  predicate ConfigLoads(url: Option<string>, anonKey: Option<string>) {
    Truthy(url) && Truthy(anonKey)
  }

  const DefaultError: string := "Ocorreu um erro inesperado. Tente novamente."

  /** The fields of an error value `handleSupabaseError` reads; `None` for `null` or `undefined`. */
  datatype ErrorValue = ErrorValue(message: Option<string>, errorDescription: Option<string>)

  /** `handleSupabaseError`: the message, else the description, else a fixed text; never empty. */
  function HandleSupabaseError(e: Option<ErrorValue>): (text: string)
    ensures text != ""
    ensures e.Some? && Truthy(e.value.message) ==> text == e.value.message.value
    ensures e.Some? && !Truthy(e.value.message) && Truthy(e.value.errorDescription) ==> text == e.value.errorDescription.value
    ensures e.None? || (!Truthy(e.value.message) && !Truthy(e.value.errorDescription)) ==> text == DefaultError
  {
    if e.Some? && Truthy(e.value.message) then e.value.message.value
    else if e.Some? && Truthy(e.value.errorDescription) then e.value.errorDescription.value
    else DefaultError
  }

  /** What a helper hands back: a value, or `{ error: text }`. */
  datatype Reply<T> = Value(value: T) | ErrorText(text: string)

  /**
   * `createListing(row)`: insert the row (under the id the database
   * assigns; a taken id fails like any insert error) and return it, or
   * the error's text.
   */
  function CreateListing(s: Store, row: Listing, insert: Call, err: Option<ErrorValue>): (r: (Store, Reply<Listing>))
    ensures r.1.Value? <==> insert == Ok && row.id !in s.listings
    ensures r.1.Value? ==> r.1.value == row && r.0 == InsertListing(s, row)
    ensures r.1.ErrorText? ==> r.0 == s && r.1.text == HandleSupabaseError(err)
  {
    match insert
    case Ok =>
      if row.id in s.listings then (s, ErrorText(HandleSupabaseError(err)))
      else (InsertListing(s, row), Value(row))
    case _ => (s, ErrorText(HandleSupabaseError(err)))
  }

  /** `${listingId}/${Date.now()}-${image.name}`: the listing's folder, the upload time, a dash, the file name. */
  function ImagePath(listingId: string, time: nat, name: string): (p: string)
    ensures |p| == |listingId| + 1 + |NatToString(time)| + 1 + |name|
    ensures p[..|listingId| + 1] == listingId + "/"
    ensures p[|listingId| + 1..|p| - |name|] == NatToString(time) + "-"
    ensures p[|p| - |name|..] == name
  {
    var p := listingId + "/" + NatToString(time) + "-" + name;
    assert p == (listingId + "/") + (NatToString(time) + "-") + name;
    p
  }

  /**
   * Within one listing's folder, a path determines the upload time and the
   * file name. Unlike the indexed paths of the listing forms, it does not
   * involve the file's position: two files with the same name uploaded in
   * the same millisecond share a path.
   */
  lemma {:induction false} ImagePathDeterminesTimeAndName(listingId: string, t1: nat, n1: string, t2: nat, n2: string)
    ensures ImagePath(listingId, t1, n1) == ImagePath(listingId, t2, n2) <==> t1 == t2 && n1 == n2
  {
    var p1, p2 := ImagePath(listingId, t1, n1), ImagePath(listingId, t2, n2);
    if p1 == p2 {
      var k := |listingId| + 1;
      assert p1[k..] == NatToString(t1) + ("-" + n1);
      assert p2[k..] == NatToString(t2) + ("-" + n2);
      ListingForm.SplitAfterDigits(NatToString(t1), "-" + n1, NatToString(t2), "-" + n2);
      NatToStringInjective(t1, t2);
      assert n1 == ("-" + n1)[1..];
      assert n2 == ("-" + n2)[1..];
    }
  }

  /**
   * One upload of `uploadListingImages`: the public url when the storage
   * upload succeeds (`None` when it reports an error), and the outcome of
   * the `images` row insert that follows it.
   */
  datatype ImageUpload = ImageUpload(url: Option<string>, rowInsert: Call)

  /** The upload aborts at this step: the storage error is thrown, and so is an exception from the row insert. */
  predicate Aborts(u: ImageUpload) {
    u.url.None? || u.rowInsert == Threw
  }

  /** The `images` rows written for `uploads`, stopping at the first abort. */
  function RowsWritten(listingId: string, uploads: seq<ImageUpload>): (rows: seq<ImageRow>)
    ensures |rows| <= |uploads|
    ensures forall r :: r in rows ==> r.listingId == listingId
  {
    if uploads == [] || Aborts(uploads[0]) then []
    else
      var rest := RowsWritten(listingId, uploads[1..]);
      if uploads[0].rowInsert == Ok then [ImageRow(listingId, uploads[0].url.value)] + rest else rest
  }

  /**
   * `uploadListingImages`: upload in order; the first failure is rethrown
   * (`None`), after the rows of the earlier uploads are already written.
   * On success one url per image, in order. The row insert's error object
   * is not checked.
   */
  function UploadListingImages(listingId: string, uploads: seq<ImageUpload>): (urls: Option<seq<string>>)
    ensures urls.Some? <==> forall i :: 0 <= i < |uploads| ==> !Aborts(uploads[i])
    ensures urls.Some? ==> |urls.value| == |uploads|
                           && forall i :: 0 <= i < |uploads| ==> urls.value[i] == uploads[i].url.value
  {
    if uploads == [] then Some([])
    else if Aborts(uploads[0]) then None
    else
      var rest := UploadListingImages(listingId, uploads[1..]);
      if rest.None? then
        assert exists i :: 0 <= i < |uploads| && Aborts(uploads[i]) by {
          var j :| 0 <= j < |uploads[1..]| && Aborts(uploads[1..][j]);
          assert Aborts(uploads[j + 1]);
        }
        None
      else
        Some([uploads[0].url.value] + rest.value)
  }

  /** An abort at step `k` ends the writing: nothing from step `k` on is written. */
  lemma {:induction false} RowsStopAtAbort(listingId: string, uploads: seq<ImageUpload>, k: nat)
    requires k < |uploads| && Aborts(uploads[k])
    ensures RowsWritten(listingId, uploads) == RowsWritten(listingId, uploads[..k])
    decreases k
  {
    if k > 0 && !Aborts(uploads[0]) {
      assert uploads[..k][1..] == uploads[1..][..k - 1];
      RowsStopAtAbort(listingId, uploads[1..], k - 1);
    }
  }

  /** Step `i` ran (no abort up to and including it), its row insert applied, and `row` is its row. */
  predicate WrittenBy(listingId: string, uploads: seq<ImageUpload>, i: int, row: ImageRow)
    requires 0 <= i < |uploads|
  {
    && (forall j :: 0 <= j <= i ==> !Aborts(uploads[j]))
    && uploads[i].rowInsert == Ok
    && row == ImageRow(listingId, uploads[i].url.value)
  }

  /**
   * Every row written comes from a step that was reached without an
   * abort and whose row insert applied.
   */
  lemma {:induction false} RowsFromOkInserts(listingId: string, uploads: seq<ImageUpload>)
    ensures forall row :: row in RowsWritten(listingId, uploads) ==>
      exists i :: 0 <= i < |uploads| && WrittenBy(listingId, uploads, i, row)
    decreases |uploads|
  {
    if uploads != [] && !Aborts(uploads[0]) {
      var tail := uploads[1..];
      RowsFromOkInserts(listingId, tail);
      forall row | row in RowsWritten(listingId, tail)
        ensures exists i :: 0 <= i < |uploads| && WrittenBy(listingId, uploads, i, row)
      {
        var i :| 0 <= i < |tail| && WrittenBy(listingId, tail, i, row);
        ShiftWrittenBy(listingId, uploads, i, row);
      }
      if uploads[0].rowInsert == Ok {
        assert WrittenBy(listingId, uploads, 0, ImageRow(listingId, uploads[0].url.value));
      }
    }
  }

  /** A row written by step `i` of the later steps is written by step `i + 1` of the whole run, if the first step ran. */
  lemma ShiftWrittenBy(listingId: string, uploads: seq<ImageUpload>, i: int, row: ImageRow)
    requires |uploads| > 0 && !Aborts(uploads[0])
    requires 0 <= i < |uploads| - 1 && WrittenBy(listingId, uploads[1..], i, row)
    ensures WrittenBy(listingId, uploads, i + 1, row)
  {
    forall j | 0 <= j <= i + 1 ensures !Aborts(uploads[j]) {
      if j > 0 { assert uploads[j] == uploads[1..][j - 1]; }
    }
  }

  /** The store after `uploadListingImages`: the rows written are appended to `images`. */
  function StoreAfterUpload(s: Store, listingId: string, uploads: seq<ImageUpload>): (r: Store)
    ensures r.listings == s.listings && r.payments == s.payments && r.users == s.users
    ensures |r.images| == |s.images| + |RowsWritten(listingId, uploads)|
    ensures r.images[..|s.images|] == s.images && r.images[|s.images|..] == RowsWritten(listingId, uploads)
    ensures forall k :: 0 <= k < |uploads| && Aborts(uploads[k]) ==>
      r.images == s.images + RowsWritten(listingId, uploads[..k])
  {
    var r := s.(images := s.images + RowsWritten(listingId, uploads));
    assert r.images[..|s.images|] == s.images;
    forall k | 0 <= k < |uploads| && Aborts(uploads[k])
      ensures r.images == s.images + RowsWritten(listingId, uploads[..k])
    {
      RowsStopAtAbort(listingId, uploads, k);
    }
    r
  }

  /** With every upload and row insert succeeding, each url gets exactly one row, in order. */
  lemma {:induction false} RowsMatchUrls(listingId: string, uploads: seq<ImageUpload>)
    requires forall i :: 0 <= i < |uploads| ==> uploads[i].url.Some? && uploads[i].rowInsert == Ok
    ensures UploadListingImages(listingId, uploads).Some?
    ensures |RowsWritten(listingId, uploads)| == |uploads|
    ensures forall i :: 0 <= i < |uploads| ==>
      RowsWritten(listingId, uploads)[i] == ImageRow(listingId, UploadListingImages(listingId, uploads).value[i])
    decreases |uploads|
  {
    if uploads != [] {
      RowsMatchUrls(listingId, uploads[1..]);
    }
  }

  /**
   * `updateListingPaymentStatus(listingId, isPaid)`: only `is_paid` of that
   * listing changes; an error is reported as its text.
   */
  function UpdateListingPaymentStatus(s: Store, listingId: string, isPaid: bool, update: Call,
                                      err: Option<ErrorValue>): (r: (Store, Reply<bool>))
    ensures r.1.Value? <==> update == Ok
    ensures r.1.ErrorText? ==> r.0 == s && r.1.text == HandleSupabaseError(err)
    ensures update == Ok && listingId in s.listings ==>
      && OnlyListingChanged(s, r.0, listingId)
      && r.0.listings[listingId].isPaid == isPaid
      && r.0.listings[listingId].(isPaid := false) == s.listings[listingId].(isPaid := false)
    ensures listingId !in s.listings ==> r.0 == s
  {
    match update
    case Ok =>
      if listingId in s.listings then
        (PutListing(s, listingId, s.listings[listingId].(isPaid := isPaid)), Value(true))
      else
        (s, Value(true))
    case _ => (s, ErrorText(HandleSupabaseError(err)))
  }

  /** Marking a listing paid here does to the store what the reconciling webhook's listing write does. */
  lemma MarkPaidAgreesWithWebhook(s: Store, listingId: string)
    ensures UpdateListingPaymentStatus(s, listingId, true, Ok, None).0 == Reconcile.MarkPaid(s, Some(listingId))
  {
  }
}
