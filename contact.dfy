/** The contact form of PropertyDetailView (Views/PropertyDetailView.swift):
    the email pattern `sendMessage` checks, the condition that enables the
    send button, and the form state `sendMessage` updates. */
module ContactForm {

  // ---------------------------------------------------------------------
  // The pattern [A-Z0-9a-z._%+-]+@[A-Za-z0-9.-]+\.[A-Za-z]{2,64}, matched
  // against the whole string.

  predicate IsAsciiLetter(c: char)
  {
    'A' <= c <= 'Z' || 'a' <= c <= 'z'
  }

  predicate IsAsciiDigit(c: char)
  {
    '0' <= c <= '9'
  }

  /** The class `[A-Z0-9a-z._%+-]` of the part before the '@'. */
  predicate IsLocalChar(c: char)
  {
    IsAsciiLetter(c) || IsAsciiDigit(c) || c == '.' || c == '_' || c == '%' || c == '+' || c == '-'
  }

  /** The class `[A-Za-z0-9.-]` of the part after the '@'. */
  predicate IsDomainChar(c: char)
  {
    IsAsciiLetter(c) || IsAsciiDigit(c) || c == '.' || c == '-'
  }

  predicate AllLocal(s: string)
  {
    forall i :: 0 <= i < |s| ==> IsLocalChar(s[i])
  }

  predicate AllDomain(s: string)
  {
    forall i :: 0 <= i < |s| ==> IsDomainChar(s[i])
  }

  predicate AllLetters(s: string)
  {
    forall i :: 0 <= i < |s| ==> IsAsciiLetter(s[i])
  }

  /** `s` splits at `at` and `dot` into the pattern's five pieces: a
      non-empty local run, '@', a non-empty domain run, '.', and a top-level
      domain of 2 to 64 letters. */
  predicate SplitsAsEmail(s: string, at: int, dot: int)
  {
    0 < at && at + 1 < dot && dot < |s| &&
    AllLocal(s[..at]) && s[at] == '@' &&
    AllDomain(s[at + 1..dot]) && s[dot] == '.' &&
    2 <= |s| - dot - 1 <= 64 && AllLetters(s[dot + 1..])
  }

  /** The regular expression's meaning: some split of the whole string
      matches it. */
  ghost predicate MatchesEmailPattern(s: string)
  {
    exists at, dot :: SplitsAsEmail(s, at, dot)
  }

  /** The position of the first `c` in `s`, or |s| when there is none. */
  function FirstIndexOf(s: string, c: char): (i: nat)
    ensures i <= |s|
    ensures i < |s| ==> s[i] == c
    ensures forall k :: 0 <= k < i ==> s[k] != c
  {
    if s == [] then 0
    else if s[0] == c then 0
    else 1 + FirstIndexOf(s[1..], c)
  }

  /** The position of the last `c` in `s`, or -1 when there is none. */
  function LastIndexOf(s: string, c: char): (i: int)
    ensures -1 <= i < |s|
    ensures 0 <= i ==> s[i] == c
    ensures forall k :: i < k < |s| ==> s[k] != c
  {
    if s == [] then -1
    else if s[|s| - 1] == c then |s| - 1
    else LastIndexOf(s[..|s| - 1], c)
  }

  /** The domain part after the '@': domain characters throughout, and a
      last '.' that has something before it and 2 to 64 letters after it. */
  predicate IsValidDomain(d: string)
  {
    AllDomain(d) &&
    var dot := LastIndexOf(d, '.');
    0 < dot && 2 <= |d| - dot - 1 <= 64 && AllLetters(d[dot + 1..])
  }

  /** `emailPredicate.evaluate(with:)`: the check the form runs, by
      locating the '@' and the last '.' instead of searching all splits. */
  predicate IsValidEmail(s: string)
  {
    var at := FirstIndexOf(s, '@');
    0 < at < |s| && AllLocal(s[..at]) && IsValidDomain(s[at + 1..])
  }

  /** The check accepts exactly the strings the pattern matches. Neither
      character class holds '@', so the '@' of any match is the first one;
      the top-level domain holds no '.', so its '.' is the last one. */
  lemma IsValidEmailIff(s: string)
    ensures IsValidEmail(s) <==> MatchesEmailPattern(s)
  {
    var at := FirstIndexOf(s, '@');
    if IsValidEmail(s) {
      var d := s[at + 1..];
      var dot := LastIndexOf(d, '.');
      assert s[at + 1..at + 1 + dot] == d[..dot];
      assert s[at + 1 + dot + 1..] == d[dot + 1..];
      assert SplitsAsEmail(s, at, at + 1 + dot);
    }
    if MatchesEmailPattern(s) {
      var a, t :| SplitsAsEmail(s, a, t);
      assert !IsLocalChar('@');
      assert a == at;
      var d := s[at + 1..];
      var j := t - at - 1;
      assert AllDomain(d) by {
        forall k | 0 <= k < |d| ensures IsDomainChar(d[k]) {
          if k < j {
            assert d[k] == s[at + 1..t][k];
          } else if k > j {
            assert d[k] == s[t + 1..][k - j - 1];
          }
        }
      }
      assert d[j] == '.';
      var dot := LastIndexOf(d, '.');
      assert dot == j;
      assert d[dot + 1..] == s[t + 1..];
    }
  }

  /** A valid address holds exactly one '@': neither character class
      admits it. */
  lemma ValidEmailHasOneAt(s: string)
    requires MatchesEmailPattern(s)
    ensures multiset(s)['@'] == 1
  {
    var at, dot :| SplitsAsEmail(s, at, dot);
    assert s == s[..at] + [s[at]] + s[at + 1..];
    assert !IsLocalChar('@') && !IsDomainChar('@') && !IsAsciiLetter('@');
    assert '@' !in s[..at];
    assert s[at + 1..] == s[at + 1..dot] + [s[dot]] + s[dot + 1..];
    assert '@' !in s[at + 1..dot];
    assert '@' !in s[dot + 1..];
    calc {
      multiset(s)['@'];
      multiset(s[..at])['@'] + multiset([s[at]])['@'] + multiset(s[at + 1..])['@'];
      0 + 1 + multiset(s[at + 1..])['@'];
      1 + multiset(s[at + 1..dot])['@'] + multiset([s[dot]])['@'] + multiset(s[dot + 1..])['@'];
      1;
    }
  }

  /** An address without '@' is rejected. */
  lemma RejectsNotAnEmail()
    ensures !IsValidEmail("not-an-email")
  {
    var s := "not-an-email";
    assert '@' !in s;
    assert FirstIndexOf(s, '@') == |s|;
  }

  /** A one-letter local part, a one-letter domain and a three-letter
      top-level domain are accepted. */
  lemma AcceptsShortEmail()
    ensures IsValidEmail("a@b.com")
  {
    var s := "a@b.com";
    assert s[..1] == "a" && s[2..3] == "b" && s[4..] == "com";
    assert SplitsAsEmail(s, 1, 3);
    IsValidEmailIff(s);
  }

  // ---------------------------------------------------------------------
  // The form state.

  const InvalidEmailMessage: string := "Please enter a valid email address"
  const SentMessage: string := "Your message has been sent successfully!"

  /** `.disabled(contactName.isEmpty || contactEmail.isEmpty ||
      contactMessage.isEmpty)`, negated. */
  predicate SendEnabled(name: string, email: string, message: string)
  {
    name != "" && email != "" && message != ""
  }

  /** The `@State` of PropertyDetailView that the contact form uses. */
  class ContactFormState {
    var showingContactForm: bool
    var contactName: string
    var contactEmail: string
    var contactMessage: string
    var showingAlert: bool
    var alertMessage: string

    constructor ()
      ensures !showingContactForm && !showingAlert
      ensures contactName == "" && contactEmail == "" && contactMessage == "" && alertMessage == ""
    {
      showingContactForm := false;
      contactName, contactEmail, contactMessage := "", "", "";
      showingAlert := false;
      alertMessage := "";
    }

    function SendButtonEnabled(): bool
      reads this
    {
      SendEnabled(contactName, contactEmail, contactMessage)
    }

    /** The "Contact Agent" button opens the form. */
    method OpenContactForm()
      modifies this`showingContactForm
      ensures showingContactForm
    {
      showingContactForm := true;
    }

    /** `sendMessage()`: on an address the pattern rejects, only the alert is
        raised; otherwise the success alert is raised, the three fields are
        cleared and the form closes (which disables the send button). */
    method SendMessage()
      modifies this
      ensures showingAlert
      ensures !IsValidEmail(old(contactEmail)) ==>
                alertMessage == InvalidEmailMessage &&
                contactName == old(contactName) && contactEmail == old(contactEmail) &&
                contactMessage == old(contactMessage) && showingContactForm == old(showingContactForm)
      ensures IsValidEmail(old(contactEmail)) ==>
                alertMessage == SentMessage &&
                contactName == "" && contactEmail == "" && contactMessage == "" &&
                !showingContactForm && !SendButtonEnabled()
    {
      if !IsValidEmail(contactEmail) {
        alertMessage := InvalidEmailMessage;
        showingAlert := true;
        return;
      }
      alertMessage := SentMessage;
      showingAlert := true;
      contactName := "";
      contactEmail := "";
      contactMessage := "";
      showingContactForm := false;
    }

    /** A tap on "Send Message": a disabled button does nothing. */
    method TapSend()
      modifies this
      ensures !old(SendButtonEnabled()) ==>
                showingAlert == old(showingAlert) && alertMessage == old(alertMessage) &&
                contactName == old(contactName) && contactEmail == old(contactEmail) &&
                contactMessage == old(contactMessage) && showingContactForm == old(showingContactForm)
      ensures old(SendButtonEnabled()) ==> showingAlert
      ensures old(SendButtonEnabled()) && !IsValidEmail(old(contactEmail)) ==>
                alertMessage == InvalidEmailMessage &&
                contactName == old(contactName) && contactEmail == old(contactEmail) &&
                contactMessage == old(contactMessage) && showingContactForm == old(showingContactForm)
      ensures old(SendButtonEnabled()) && IsValidEmail(old(contactEmail)) ==>
                alertMessage == SentMessage &&
                contactName == "" && contactEmail == "" && contactMessage == "" && !showingContactForm
    {
      if SendButtonEnabled() {
        SendMessage();
      }
    }
  }
}
