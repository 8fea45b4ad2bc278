/**
 * The password-recovery page (src/pages/ForgotPassword.tsx): the form
 * accepts the same emails as the sign-in form, a submission that gets past
 * the browser's and the form's email checks always ends on the success
 * screen with loading cleared, and "Tentar novamente" goes back to the form.
 */
module ForgotPassword {
  import Login

  /** The page's two flags: a submission in progress, and the success screen shown. */
  datatype Page = Page(loading: bool, success: bool)

  const Initial: Page := Page(false, false)

  /**
   * Submitting the form with `email`. `onSubmit` runs only when the
   * browser's email check and the form library's rule both pass; it then
   * always reaches the success screen, and its `finally` clears loading.
   */
  function Submit(p: Page, email: string): (r: Page)
    ensures Login.EmailSubmits(email) ==> r == Page(false, true)
    ensures !Login.EmailSubmits(email) ==> r == p
    ensures r.success <==> (Login.MatchesEmailPattern(email) && Login.BrowserAcceptsEmail(email)) || p.success
  {
    if Login.EmailSubmits(email) then Page(false, true) else p
  }

  /** "Tentar novamente": back to the form; loading is untouched. */
  function TryAgain(p: Page): (r: Page)
    ensures !r.success && r.loading == p.loading
  {
    p.(success := false)
  }

  /** After a successful submission, trying again shows the initial form. */
  lemma TryAgainAfterSubmit(p: Page, email: string)
    requires Login.EmailSubmits(email)
    ensures TryAgain(Submit(p, email)) == Initial
  {
  }

  /** From the form, a valid submission and "try again" can be repeated indefinitely. */
  lemma SubmitAfterTryAgain(p: Page, email: string)
    requires Login.MatchesEmailPattern(email) && Login.BrowserAcceptsEmail(email)
    ensures Submit(TryAgain(p), email) == Page(false, true)
  {
  }

  /** An email the pattern accepts but the browser refuses leaves the form as it was. */
  lemma BrowserRefusalKeepsForm()
    ensures Login.MatchesEmailPattern("a@b..cc")
    ensures Submit(Initial, "a@b..cc") == Initial
  {
    Login.BrowserBlocksDoubleDot();
  }
}
