/**
 * What the create and edit pages (src/pages/CreateListing.tsx and
 * src/pages/EditListing.tsx) share: the five-file selection cap, the
 * storage path of each uploaded image, the upload loop that skips failed
 * files, the form's field rules, and the treatment of optional fields.
 */
module ListingForm {
  import opened Common
  import opened Text

  /** A file chosen in the file input; only its name matters here. */
  datatype File = File(name: string)

  const MaxSelected: nat := 5

  /**
   * `handleImageUpload`: a choice of more than five files is refused and
   * the previous selection kept; otherwise the choice replaces it.
   */
  function SelectFiles(current: seq<File>, chosen: seq<File>): (r: seq<File>)
    ensures |chosen| <= MaxSelected ==> r == chosen
    ensures |chosen| > MaxSelected ==> r == current
    ensures |current| <= MaxSelected ==> |r| <= MaxSelected
  {
    if |chosen| > MaxSelected then current else chosen
  }

  /** `${user?.id}/${listingId}/`: the folder of a listing's uploads; an absent user renders as "undefined". */
  function Folder(user: Option<string>, listingId: string): string {
    Interpolated(user, "undefined") + "/" + listingId + "/"
  }

  /** `${Date.now()}-${i}.${fileExt}`: the part of the path after the folder. */
  function FileName(time: nat, i: nat, name: string): string {
    NatToString(time) + ("-" + (NatToString(i) + ("." + AfterLastDot(name))))
  }

  /** `${user?.id}/${listingId}/${Date.now()}-${i}.${fileExt}`. */
  function StoragePath(user: Option<string>, listingId: string, time: nat, i: nat, name: string): (p: string)
    ensures |Folder(user, listingId)| < |p|
    ensures p[..|Folder(user, listingId)|] == Folder(user, listingId)
    ensures p[|Folder(user, listingId)|..] == FileName(time, i, name)
  {
    var f := Folder(user, listingId);
    var p := f + FileName(time, i, name);
    assert p[..|f|] == f;
    assert p[|f|..] == FileName(time, i, name);
    p
  }

  /** The leading run of decimal digits of `s`. */
  function DigitPrefix(s: string): (d: string)
    ensures |d| <= |s|
    ensures d == s[..|d|] && AllDigits(d)
    ensures |d| == |s| || !IsDigit(s[|d|])
  {
    if s == [] || !IsDigit(s[0]) then ""
    else
      var rest := DigitPrefix(s[1..]);
      assert s[1..][..|rest|] == s[1..|rest| + 1];
      [s[0]] + rest
  }

  /** A digit run followed by a non-digit is the digit prefix of the whole. */
  lemma {:induction false} DigitPrefixOfConcat(d: string, rest: string)
    requires AllDigits(d)
    requires rest == [] || !IsDigit(rest[0])
    ensures DigitPrefix(d + rest) == d
    decreases |d|
  {
    if d != [] {
      assert (d + rest)[1..] == d[1..] + rest;
      DigitPrefixOfConcat(d[1..], rest);
    }
  }

  /** Two digit runs, each followed by a non-digit, split a text the same way. */
  lemma SplitAfterDigits(a: string, ra: string, b: string, rb: string)
    requires AllDigits(a) && AllDigits(b)
    requires ra != [] && !IsDigit(ra[0]) && rb != [] && !IsDigit(rb[0])
    requires a + ra == b + rb
    ensures a == b && ra == rb
  {
    DigitPrefixOfConcat(a, ra);
    DigitPrefixOfConcat(b, rb);
    assert ra == (a + ra)[|a|..];
    assert rb == (b + rb)[|b|..];
  }

  /**
   * Within one folder, a storage path determines the upload time and the
   * file's position in the selection: files at different positions never
   * share a path, even when uploaded in the same millisecond.
   */
  lemma {:induction false} StoragePathDeterminesIndex(user: Option<string>, listingId: string,
                                                    t1: nat, i: nat, n1: string, t2: nat, j: nat, n2: string)
    ensures StoragePath(user, listingId, t1, i, n1) == StoragePath(user, listingId, t2, j, n2) ==> t1 == t2 && i == j
  {
    if StoragePath(user, listingId, t1, i, n1) == StoragePath(user, listingId, t2, j, n2) {
      var x1 := "-" + (NatToString(i) + ("." + AfterLastDot(n1)));
      var x2 := "-" + (NatToString(j) + ("." + AfterLastDot(n2)));
      assert FileName(t1, i, n1) == FileName(t2, j, n2);
      SplitAfterDigits(NatToString(t1), x1, NatToString(t2), x2);
      NatToStringInjective(t1, t2);
      var y1 := "." + AfterLastDot(n1);
      var y2 := "." + AfterLastDot(n2);
      assert NatToString(i) + y1 == x1[1..];
      assert NatToString(j) + y2 == x2[1..];
      SplitAfterDigits(NatToString(i), y1, NatToString(j), y2);
      NatToStringInjective(i, j);
    }
  }

  /**
   * The public urls of the uploads that succeeded, in selection order:
   * `results[i]` is the url of file `i`, or `None` when its upload failed
   * or threw (the loop `continue`s past it).
   */
  function Successes(results: seq<Option<string>>): (urls: seq<string>)
    ensures |urls| <= |results|
    ensures forall u :: u in urls ==> Some(u) in results
  {
    if results == [] then []
    else
      var rest := Successes(results[1..]);
      assert forall u :: u in rest ==> Some(u) in results by {
        forall u | u in rest ensures Some(u) in results {
          assert Some(u) in results[1..];
        }
      }
      if results[0].Some? then [results[0].value] + rest else rest
  }

  /** Processing one more file appends its url exactly when its upload succeeded. */
  lemma {:induction false} SuccessesSnoc(results: seq<Option<string>>, x: Option<string>)
    ensures Successes(results + [x]) == Successes(results) + (if x.Some? then [x.value] else [])
    decreases |results|
  {
    if results != [] {
      assert (results + [x])[1..] == results[1..] + [x];
      SuccessesSnoc(results[1..], x);
    }
  }

  /** When every upload succeeds, every file gets its url, in order. */
  lemma {:induction false} SuccessesAllOk(results: seq<Option<string>>)
    requires forall i :: 0 <= i < |results| ==> results[i].Some?
    ensures |Successes(results)| == |results|
    ensures forall i :: 0 <= i < |results| ==> Successes(results)[i] == results[i].value
    decreases |results|
  {
    if results != [] {
      SuccessesAllOk(results[1..]);
    }
  }

  /**
   * `uploadImages` / `uploadNewImages`: one upload per selected file, at
   * the path built from that upload's clock reading `times[i]`; a failed
   * upload is skipped. Returns the collected urls and the paths tried.
   */
  method UploadImages(user: Option<string>, listingId: string, files: seq<File>, times: seq<nat>,
                      results: seq<Option<string>>)
      returns (urls: seq<string>, paths: seq<string>)
    requires |times| == |files| && |results| == |files|
    ensures urls == Successes(results)
    ensures |urls| <= |files|
    ensures |paths| == |files|
    ensures forall i :: 0 <= i < |files| ==> paths[i] == StoragePath(user, listingId, times[i], i, files[i].name)
  {
    paths := seq(|files|, k requires 0 <= k < |files| => StoragePath(user, listingId, times[k], k, files[k].name));
    urls := [];
    var i := 0;
    while i < |files|
      invariant 0 <= i <= |files|
      invariant urls == Successes(results[..i])
    {
      SuccessesSnoc(results[..i], results[i]);
      assert results[..i + 1] == results[..i] + [results[i]];
      if results[i].Some? {
        urls := urls + [results[i].value];
      }
      i := i + 1;
    }
    assert results[..i] == results;
  }

  /** The listing form's fields; `price` is `None` when the number input is empty. */
  datatype FormData = FormData(
    title: string,
    description: string,
    price: Option<real>,
    category: string,
    city: string,
    state: string,
    street: string,
    number: string,
    zipCode: string,
    contactInfo: string)

  /** `required`: an empty input fails (whitespace is not stripped). */
  predicate Filled(v: string) {
    v != ""
  }

  /** `required` plus `min: 0` on the price: zero is accepted. */
  predicate PriceValid(p: Option<real>) {
    p.Some? && p.value >= 0.0
  }

  /** The create form's rules: title, category, description, price, city and state. */
  predicate CreateValid(d: FormData) {
    Filled(d.title) && Filled(d.category) && Filled(d.description) && PriceValid(d.price)
    && Filled(d.city) && Filled(d.state)
  }

  /** The edit form's rules: as on create, but city and state are optional. */
  predicate EditValid(d: FormData) {
    Filled(d.title) && Filled(d.category) && Filled(d.description) && PriceValid(d.price)
  }

  /** Whatever the create form accepts, the edit form accepts too; the converse fails. */
  lemma CreateStricterThanEdit(d: FormData)
    ensures CreateValid(d) ==> EditValid(d)
    ensures EditValid(d) && (d.city == "" || d.state == "") ==> !CreateValid(d)
  {
  }

  /** A free item (price zero) passes both forms. */
  lemma ZeroPriceAccepted(d: FormData)
    requires Filled(d.title) && Filled(d.category) && Filled(d.description) && Filled(d.city) && Filled(d.state)
    requires d.price == Some(0.0)
    ensures CreateValid(d) && EditValid(d)
  {
  }

  /**
   * `if (v && v.trim()) data.field = v.trim()`: a field blank after
   * trimming is left out, any other is stored trimmed.
   */
  function OptionalField(v: string): (r: Option<string>)
    ensures r.None? <==> IsBlank(v)
    ensures r.Some? ==> r.value == Trim(v) && r.value != ""
    ensures r.Some? ==> !IsSpace(r.value[0]) && !IsSpace(r.value[|r.value| - 1])
  {
    var t := Trim(v);
    if t != "" then Some(t) else None
  }

  /** Re-submitting a stored optional value stores it unchanged. */
  lemma OptionalFieldStable(v: string)
    requires OptionalField(v).Some?
    ensures OptionalField(OptionalField(v).value) == OptionalField(v)
  {
    TrimIdempotent(v);
  }
}
