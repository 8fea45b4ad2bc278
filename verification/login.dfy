/**
 * The sign-in page (src/pages/Login.tsx): the email and password rules of
 * its form, the sign-in call retried at most twice when it throws, and
 * what the page shows or where it goes afterwards.
 */
module Login {
  import opened Common

  // ---------------------------------------------------------------------
  // The email rule, `/^[A-Z0-9._%+-]+@[A-Z0-9.-]+\.[A-Z]{2,}$/i`
  // ---------------------------------------------------------------------

  /** `[A-Z]` under the `i` flag: an ASCII letter of either case. */
  predicate IsLetter(c: char) {
    ('A' <= c <= 'Z') || ('a' <= c <= 'z')
  }

  /** `[A-Z0-9._%+-]`, the characters of the part before `@`. */
  predicate LocalChar(c: char) {
    IsLetter(c) || IsDigit(c) || c == '.' || c == '_' || c == '%' || c == '+' || c == '-'
  }

  /** `[A-Z0-9.-]`, the characters of the domain before its last `.`. */
  predicate DomainChar(c: char) {
    IsLetter(c) || IsDigit(c) || c == '.' || c == '-'
  }

  /**
   * `s` is `local@domain.tld` with the `@` at `at` and the `.` before the
   * top-level part at `dot`: a non-empty local part, a non-empty domain,
   * and at least two letters after the dot.
   */
  predicate SplitsAt(s: string, at: int, dot: int) {
    && 0 < at && at + 1 < dot && dot + 2 < |s|
    && s[at] == '@' && s[dot] == '.'
    && (forall i :: 0 <= i < at ==> LocalChar(s[i]))
    && (forall i :: at < i < dot ==> DomainChar(s[i]))
    && (forall i :: dot < i < |s| ==> IsLetter(s[i]))
  }

  /** The language of the pattern: some split of `s` fits it. */
  ghost predicate MatchesEmailPattern(s: string) {
    exists at, dot :: SplitsAt(s, at, dot)
  }

  /** The first position of `c` in `s`. */
  function IndexOf(s: string, c: char): (r: Option<nat>)
    ensures r.None? <==> c !in s
    ensures r.Some? ==> r.value < |s| && s[r.value] == c && c !in s[..r.value]
  {
    if s == [] then None
    else if s[0] == c then Some(0)
    else
      var rest := IndexOf(s[1..], c);
      if rest.None? then None
      else
        assert s[..rest.value + 1] == [s[0]] + s[1..][..rest.value];
        Some(rest.value + 1)
  }

  /** The last position of `c` in `s`. */
  function LastIndexOf(s: string, c: char): (r: Option<nat>)
    ensures r.None? <==> c !in s
    ensures r.Some? ==> r.value < |s| && s[r.value] == c && c !in s[r.value + 1..]
  {
    if s == [] then None
    else if s[|s| - 1] == c then Some(|s| - 1)
    else
      var rest := LastIndexOf(s[..|s| - 1], c);
      if rest.None? then
        assert s == s[..|s| - 1] + [s[|s| - 1]];
        None
      else
        assert s[rest.value + 1..] == s[..|s| - 1][rest.value + 1..] + [s[|s| - 1]];
        rest
  }

  /** The email rule, decided by splitting at the first `@` and the last `.`. */
  function ValidEmail(s: string): (ok: bool)
    ensures ok ==> MatchesEmailPattern(s)
  {
    var at, dot := IndexOf(s, '@'), LastIndexOf(s, '.');
    at.Some? && dot.Some? && SplitsAt(s, at.value, dot.value)
  }

  /** A position holding `c` with no `c` before it is what `IndexOf` finds. */
  lemma {:induction false} IndexOfFinds(s: string, c: char, k: nat)
    requires k < |s| && s[k] == c && c !in s[..k]
    ensures IndexOf(s, c) == Some(k)
    decreases k
  {
    if k > 0 {
      assert s[..k][0] == s[0];
      assert s[1..][..k - 1] == s[..k][1..];
      IndexOfFinds(s[1..], c, k - 1);
    }
  }

  /** A position holding `c` with no `c` after it is what `LastIndexOf` finds. */
  lemma {:induction false} LastIndexOfFinds(s: string, c: char, k: nat)
    requires k < |s| && s[k] == c && c !in s[k + 1..]
    ensures LastIndexOf(s, c) == Some(k)
    decreases |s|
  {
    if k < |s| - 1 {
      assert s[k + 1..][|s| - k - 2] == s[|s| - 1];
      assert s[..|s| - 1][k + 1..] == s[k + 1..|s| - 1];
      var mid, tail := s[k + 1..|s| - 1], s[k + 1..];
      assert c !in mid by {
        forall i | 0 <= i < |mid| ensures mid[i] != c {
          assert mid[i] == tail[i];
        }
      }
      LastIndexOfFinds(s[..|s| - 1], c, k);
    }
  }

  /** The decision agrees with the pattern on every input. */
  lemma {:induction false} ValidEmailExact(s: string)
    ensures ValidEmail(s) <==> MatchesEmailPattern(s)
  {
    if MatchesEmailPattern(s) {
      var at, dot :| SplitsAt(s, at, dot);
      assert '@' !in s[..at] by {
        forall i | 0 <= i < at ensures s[..at][i] != '@' {
          assert LocalChar(s[i]);
        }
      }
      IndexOfFinds(s, '@', at);
      var tld := s[dot + 1..];
      assert '.' !in tld by {
        forall i | 0 <= i < |tld| ensures tld[i] != '.' {
          assert IsLetter(s[dot + 1 + i]);
        }
      }
      LastIndexOfFinds(s, '.', dot);
    }
  }

  /** An accepted email has exactly one `@`. */
  lemma OneAt(s: string)
    requires ValidEmail(s)
    ensures forall i :: 0 <= i < |s| && s[i] == '@' ==> i == IndexOf(s, '@').value
  {
    var at, dot := IndexOf(s, '@').value, LastIndexOf(s, '.').value;
    forall i | 0 <= i < |s| && i != at ensures s[i] != '@' {
      if i < at {
        assert s[..at][i] == s[i];
      } else if i < dot {
        assert DomainChar(s[i]);
      } else if i > dot {
        assert IsLetter(s[i]);
      }
    }
  }

  // ---------------------------------------------------------------------
  // The browser's own check of an `<input type="email">`, run before the
  // form library sees the submit: the "valid email address" grammar of
  // section 4.10.5.1.5 of the WHATWG HTML Living Standard
  // ---------------------------------------------------------------------

  /** The characters the grammar allows before `@`. */
  predicate AtextChar(c: char) {
    || IsLetter(c) || IsDigit(c)
    || c == '.' || c == '!' || c == '#' || c == '$' || c == '%' || c == '&' || c == '\'' || c == '*'
    || c == '+' || c == '/' || c == '=' || c == '?' || c == '^' || c == '_' || c == '`' || c == '{'
    || c == '|' || c == '}' || c == '~' || c == '-'
  }

  /** A letter or digit: what a domain label starts and ends with. */
  predicate LetDig(c: char) {
    IsLetter(c) || IsDigit(c)
  }

  /** One domain label: 1 to 63 letters, digits or hyphens, starting and ending with a letter or digit. */
  predicate HtmlLabel(l: string) {
    && 1 <= |l| <= 63
    && LetDig(l[0]) && LetDig(l[|l| - 1])
    && forall i :: 0 <= i < |l| ==> LetDig(l[i]) || l[i] == '-'
  }

  /** Labels separated by single dots. */
  predicate HtmlDomain(d: string)
    decreases |d|
  {
    match IndexOf(d, '.')
    case None => HtmlLabel(d)
    case Some(k) => HtmlLabel(d[..k]) && HtmlDomain(d[k + 1..])
  }

  /** The browser lets the submit through: the field is empty, or holds `local@domain` in the grammar. */
  predicate BrowserAcceptsEmail(s: string) {
    match IndexOf(s, '@')
    case None => s == []
    case Some(at) => at > 0 && (forall i :: 0 <= i < at ==> AtextChar(s[i])) && HtmlDomain(s[at + 1..])
  }

  /** A domain the browser accepts is non-empty, neither starts nor ends with a dot, and has no two dots in a row. */
  lemma {:induction false} HtmlDomainNoEmptyLabel(d: string)
    requires HtmlDomain(d)
    ensures d != [] && d[0] != '.' && d[|d| - 1] != '.'
    ensures forall i :: 0 <= i < |d| - 1 ==> !(d[i] == '.' && d[i + 1] == '.')
    decreases |d|
  {
    match IndexOf(d, '.')
    case None =>
    case Some(k) =>
      var head, rest := d[..k], d[k + 1..];
      assert d[0] == head[0];
      HtmlDomainNoEmptyLabel(rest);
      assert d[|d| - 1] == rest[|rest| - 1];
      forall i | 0 <= i < |d| - 1 ensures !(d[i] == '.' && d[i + 1] == '.') {
        if i < k {
          assert d[i] == head[i];
        } else if i == k {
          assert d[i + 1] == rest[0];
        } else {
          assert d[i] == rest[i - k - 1] && d[i + 1] == rest[i - k];
        }
      }
  }

  /**
   * What must hold of the email for the page's `onSubmit` to run: the
   * browser's check and then the form library's rule both pass.
   */
  function EmailSubmits(s: string): (ok: bool)
    ensures ok <==> MatchesEmailPattern(s) && BrowserAcceptsEmail(s)
  {
    ValidEmailExact(s);
    ValidEmail(s) && BrowserAcceptsEmail(s)
  }

  /** Two dots in a row make a domain the browser refuses. */
  lemma DoubleDotRefused(d: string, i: nat)
    requires i + 1 < |d| && d[i] == '.' && d[i + 1] == '.'
    ensures !HtmlDomain(d)
  {
    if HtmlDomain(d) {
      HtmlDomainNoEmptyLabel(d);
    }
  }

  /** Two labels joined by a dot form a domain the browser accepts. */
  lemma {:induction false} TwoLabelDomain(a: string, b: string)
    requires HtmlLabel(a) && HtmlLabel(b)
    ensures HtmlDomain(a + "." + b)
  {
    var d := a + "." + b;
    assert '.' !in a by {
      forall i | 0 <= i < |a| ensures a[i] != '.' {
        assert LetDig(a[i]) || a[i] == '-';
      }
    }
    assert '.' !in b by {
      forall i | 0 <= i < |b| ensures b[i] != '.' {
        assert LetDig(b[i]) || b[i] == '-';
      }
    }
    assert d[..|a|] == a;
    IndexOfFinds(d, '.', |a|);
    assert d[|a| + 1..] == b;
  }

  /**
   * The pattern alone lets an empty domain label through; the browser does
   * not, so `a@b..cc` never reaches `onSubmit`.
   */
  lemma {:induction false} BrowserBlocksDoubleDot()
    ensures MatchesEmailPattern("a@b..cc")
    ensures !BrowserAcceptsEmail("a@b..cc") && !EmailSubmits("a@b..cc")
  {
    var s := "a@b..cc";
    assert SplitsAt(s, 1, 4);
    IndexOfFinds(s, '@', 1);
    DoubleDotRefused(s[2..], 1);
  }

  /** A run of one to 63 lower-case letters is a label. */
  lemma LowerLabel(l: string)
    requires 1 <= |l| <= 63 && forall i :: 0 <= i < |l| ==> 'a' <= l[i] <= 'z'
    ensures HtmlLabel(l)
  {
  }

  /** A non-empty local part and a domain the browser accepts, joined by `@`, pass the browser's check. */
  lemma {:induction false} BrowserAcceptsParts(local: string, domain: string)
    requires local != [] && forall i :: 0 <= i < |local| ==> AtextChar(local[i])
    requires HtmlDomain(domain)
    ensures BrowserAcceptsEmail(local + "@" + domain)
  {
    var s := local + "@" + domain;
    assert '@' !in local by {
      forall i | 0 <= i < |local| ensures local[i] != '@' {
        assert AtextChar(local[i]);
      }
    }
    assert s[..|local|] == local;
    IndexOfFinds(s, '@', |local|);
    assert s[|local| + 1..] == domain;
  }

  /** A plain address passes the browser's check. */
  lemma {:induction false} PlainAddressBrowserAccepts()
    ensures BrowserAcceptsEmail("ana@site.com")
  {
    LowerLabel("site");
    LowerLabel("com");
    TwoLabelDomain("site", "com");
    BrowserAcceptsParts("ana", "site" + "." + "com");
    assert "ana" + "@" + ("site" + "." + "com") == "ana@site.com";
  }

  /** A plain address passes both checks. */
  lemma {:induction false} PlainAddressSubmits()
    ensures MatchesEmailPattern("ana@site.com") && BrowserAcceptsEmail("ana@site.com")
    ensures EmailSubmits("ana@site.com")
  {
    assert SplitsAt("ana@site.com", 3, 8);
    PlainAddressBrowserAccepts();
  }

  // ---------------------------------------------------------------------
  // The password rule, `required` and `minLength: 6`
  // ---------------------------------------------------------------------

  const MinPasswordLength: nat := 6

  /** JavaScript's `length`: characters outside the Basic Multilingual Plane count twice. */
  function Utf16Length(s: string): nat {
    if s == [] then 0 else (if s[0] as int > 0xFFFF then 2 else 1) + Utf16Length(s[1..])
  }

  /** The `length` is between the number of characters and twice that. */
  lemma {:induction false} Utf16LengthBounds(s: string)
    ensures |s| <= Utf16Length(s) <= 2 * |s|
  {
    if s != [] {
      Utf16LengthBounds(s[1..]);
    }
  }

  /** Required and at least six UTF-16 code units long. */
  predicate ValidPassword(p: string) {
    Utf16Length(p) >= MinPasswordLength
  }

  /** Six characters always suffice, three never do. */
  lemma PasswordLengthByCharacters(p: string)
    ensures |p| >= MinPasswordLength ==> ValidPassword(p)
    ensures |p| < 3 ==> !ValidPassword(p)
  {
    Utf16LengthBounds(p);
  }

  // ---------------------------------------------------------------------
  // Signing in
  // ---------------------------------------------------------------------

  const MaxRetries: nat := 2
  const GenericError: string := "Erro ao fazer login. Tente novamente."
  const BadCredentials: string := "Email ou senha incorretos"

  /** The error object of a sign-in answer. */
  datatype AuthError = AuthError(message: Option<string>)

  /** One call of `signInWithPassword`: an answer (possibly carrying an error), or an exception. */
  datatype AuthAttempt = Answered(user: Option<string>, error: Option<AuthError>) | Raised

  /** The first answer among the attempts; `None` when every one raised. */
  function FirstAnswer(attempts: seq<AuthAttempt>): (r: Option<AuthAttempt>)
    ensures r.Some? ==> r.value.Answered? && r.value in attempts
    ensures r.None? <==> forall i :: 0 <= i < |attempts| ==> attempts[i].Raised?
  {
    if attempts == [] then None
    else if attempts[0].Answered? then Some(attempts[0])
    else
      var r := FirstAnswer(attempts[1..]);
      assert r.None? ==> forall i :: 0 <= i < |attempts| ==> attempts[i].Raised? by {
        if r.None? {
          forall i | 0 <= i < |attempts| ensures attempts[i].Raised? {
            if i > 0 { assert attempts[1..][i - 1] == attempts[i]; }
          }
        }
      }
      r
  }

  /**
   * The retry loop: call until an answer comes back, at most `MaxRetries`
   * times; `attempts[k]` is what the k-th call does. Returns the answer
   * (`None` when the last call's exception is rethrown) and how many calls
   * were made.
   */
  method SignInWithRetry(attempts: seq<AuthAttempt>) returns (answer: Option<AuthAttempt>, calls: nat)
    requires |attempts| >= MaxRetries
    ensures 1 <= calls <= MaxRetries
    ensures answer == FirstAnswer(attempts[..MaxRetries])
    ensures forall k :: 0 <= k < calls - 1 ==> attempts[k].Raised?
    ensures answer.Some? ==> answer.value == attempts[calls - 1]
    ensures answer.None? ==> calls == MaxRetries
  {
    var attempt := 0;
    answer := None;
    calls := 0;
    while attempt < MaxRetries
      invariant 0 <= attempt <= MaxRetries
      invariant calls == attempt
      invariant forall k :: 0 <= k < attempt ==> attempts[k].Raised?
      invariant answer.None?
      decreases MaxRetries - attempt
    {
      var result := attempts[attempt];
      calls := calls + 1;
      if result.Answered? {
        answer := Some(result);
        assert FirstAnswer(attempts[..MaxRetries]) == Some(result) by {
          FirstAnswerAfterRaised(attempts[..MaxRetries], attempt);
        }
        return;
      }
      attempt := attempt + 1;
      if attempt == MaxRetries {
        assert FirstAnswer(attempts[..MaxRetries]).None?;
        return;
      }
    }
  }

  /** After a run of raised attempts, the first answer is the next one, if it is an answer. */
  lemma {:induction false} FirstAnswerAfterRaised(attempts: seq<AuthAttempt>, n: nat)
    requires n < |attempts| && attempts[n].Answered?
    requires forall k :: 0 <= k < n ==> attempts[k].Raised?
    ensures FirstAnswer(attempts) == Some(attempts[n])
    decreases n
  {
    if n > 0 {
      FirstAnswerAfterRaised(attempts[1..], n - 1);
    }
  }

  /** What the page does after submitting. */
  datatype LoginOutcome = Navigated(path: string) | RootError(message: string) | Stayed


  /**
   * The rest of `onSubmit`. `connected` is the connection test's result;
   * `answer` what the retry loop returned; `from` the path the user was
   * sent here from.
   */
  function Outcome(connected: bool, answer: Option<AuthAttempt>, from: Option<string>): (r: LoginOutcome)
    requires answer.Some? ==> answer.value.Answered?
    ensures !connected || answer.None? ==> r == RootError(GenericError)
    ensures connected && answer.Some? && answer.value.error.Some? ==>
      r == RootError(OrElse(answer.value.error.value.message, BadCredentials))
    ensures r.Navigated? <==> connected && answer.Some? && answer.value.error.None? && answer.value.user.Some?
    ensures r.Navigated? ==> r.path == OrElse(from, "/")
  {
    if !connected || answer.None? then RootError(GenericError)
    else if answer.value.error.Some? then RootError(OrElse(answer.value.error.value.message, BadCredentials))
    else if answer.value.user.Some? then Navigated(OrElse(from, "/"))
    else Stayed
  }

  /**
   * `onSubmit`, which the form runs only for an email with `EmailSubmits`
   * and a password with `ValidPassword`: a failed connection test makes no
   * sign-in call; otherwise the retry loop runs and its result decides the
   * outcome.
   */
  method OnSubmit(connected: bool, attempts: seq<AuthAttempt>, from: Option<string>)
      returns (outcome: LoginOutcome, calls: nat)
    requires |attempts| >= MaxRetries
    ensures !connected ==> calls == 0 && outcome == RootError(GenericError)
    ensures connected ==> 1 <= calls <= MaxRetries
    ensures outcome.Navigated? ==> outcome.path == OrElse(from, "/")
    ensures outcome.Navigated? <==>
      connected && FirstAnswer(attempts[..MaxRetries]).Some?
      && FirstAnswer(attempts[..MaxRetries]).value.error.None? && FirstAnswer(attempts[..MaxRetries]).value.user.Some?
    ensures attempts[0].Raised? && attempts[1].Raised? ==> outcome == RootError(GenericError)
  {
    if !connected {
      return RootError(GenericError), 0;
    }
    var answer;
    answer, calls := SignInWithRetry(attempts);
    outcome := Outcome(connected, answer, from);
  }

  /** The names src/lib/supabase.ts exports. */
  const SupabaseExports: set<string> :=
    {"supabase", "handleSupabaseError", "createListing", "uploadListingImages", "updateListingPaymentStatus"}

  /** The name the page imports its connection test under. */
  const ConnectionTest: string := "testSupabaseConnection"

  /**
   * `onSubmit` as written, against a module exporting `exports`: when the
   * connection test is not among them, calling it throws before any
   * sign-in attempt and the catch sets the generic root error; otherwise
   * the page behaves as `OnSubmit` with the test's answer `connected`.
   */
  function OnSubmitAsWritten(exports: set<string>, connected: bool, attempts: seq<AuthAttempt>, from: Option<string>)
      : (r: LoginOutcome)
    requires |attempts| >= MaxRetries
    ensures ConnectionTest !in exports ==> r == RootError(GenericError)
    ensures r.Navigated? ==> ConnectionTest in exports && connected
  {
    if ConnectionTest in exports then Outcome(connected, FirstAnswer(attempts[..MaxRetries]), from)
    else RootError(GenericError)
  }

  /**
   * With the exports the module actually has, no sign-in ever navigates:
   * even a first attempt that returns a user and no error ends in the
   * generic error, where a page whose connection test succeeds navigates.
   */
  lemma {:induction false} MissingExportBlocksLogin(connected: bool, attempts: seq<AuthAttempt>, from: Option<string>)
    requires |attempts| >= MaxRetries
    requires attempts[0].Answered? && attempts[0].user.Some? && attempts[0].error.None?
    ensures OnSubmitAsWritten(SupabaseExports, connected, attempts, from) == RootError(GenericError)
    ensures Outcome(true, FirstAnswer(attempts[..MaxRetries]), from) == Navigated(OrElse(from, "/"))
  {
    FirstAnswerAfterRaised(attempts[..MaxRetries], 0);
  }
}
