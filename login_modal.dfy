/**
 * The login modal's e-mail field (components/layout/LoginModal.tsx): the
 * e-mail check, the error message kept for the field, and the submit guard.
 * The simulated login (a one-second timer that closes the modal) and the
 * portal are not modelled.
 */
module LoginModal {
  import opened Text

  const RequiredMessage := "Email address is required"
  const InvalidMessage := "Please enter a valid email address"

  /** A character of the class `[^\s@]`. */
  predicate EmailChar(c: char) {
    c != '@' && !IsWhitespace(c)
  }

  predicate AllEmailChars(s: string) {
    forall j :: 0 <= j < |s| ==> EmailChar(s[j])
  }

  /**
   * The regular expression `^[^\s@]+@[^\s@]+\.[^\s@]+$`: the whole string is
   * a non-empty run of `[^\s@]`, an '@', another run, a '.', and a last run.
   */
  predicate MatchesEmailRegex(s: string) {
    exists i, k :: 0 < i && i + 1 < k && k + 1 < |s| && s[i] == '@' && s[k] == '.'
      && AllEmailChars(s[..i]) && AllEmailChars(s[i + 1..k]) && AllEmailChars(s[k + 1..])
  }

  /**
   * `validateEmail`, read left to right: a non-empty local part up to the
   * first '@', then a domain free of '@' and white space with a '.' that is
   * neither its first nor its last character.
   */
  function ValidateEmail(s: string): bool
  {
    var at := IndexOf(s, '@');
    0 < at && at + 3 < |s| && AllEmailChars(s[..at]) && AllEmailChars(s[at + 1..])
      && '.' in s[at + 2..|s| - 1]
  }

  /** Every character of `s` from `lo` up to `hi` is of the class `[^\s@]`. */
  predicate EmailRange(s: string, lo: int, hi: int)
    requires 0 <= lo <= hi <= |s|
  {
    forall j :: lo <= j < hi ==> EmailChar(s[j])
  }

  lemma SliceIsRange(s: string, lo: int, hi: int)
    requires 0 <= lo <= hi <= |s|
    ensures AllEmailChars(s[lo..hi]) <==> EmailRange(s, lo, hi)
  {
    if AllEmailChars(s[lo..hi]) {
      forall j | lo <= j < hi ensures EmailChar(s[j]) {
        assert s[j] == s[lo..hi][j - lo];
      }
    }
  }

  /** The scan accepts exactly the strings the regular expression matches. */
  lemma ValidateEmailIsRegex(s: string)
    ensures ValidateEmail(s) <==> MatchesEmailRegex(s)
  {
    if ValidateEmail(s) {
      ScanMatches(s);
    }
    if MatchesEmailRegex(s) {
      var i, k :| 0 < i && i + 1 < k && k + 1 < |s| && s[i] == '@' && s[k] == '.'
        && AllEmailChars(s[..i]) && AllEmailChars(s[i + 1..k]) && AllEmailChars(s[k + 1..]);
      MatchIsScanned(s, i, k);
    }
  }

  lemma ScanMatches(s: string)
    requires ValidateEmail(s)
    ensures MatchesEmailRegex(s)
  {
    var at := IndexOf(s, '@');
    var m :| 0 <= m < |s[at + 2..|s| - 1]| && s[at + 2..|s| - 1][m] == '.';
    var k := at + 2 + m;
    assert s[k] == '.';
    SliceIsRange(s, at + 1, |s|);
    assert s[at + 1..] == s[at + 1..|s|];
    SliceIsRange(s, at + 1, k);
    SliceIsRange(s, k + 1, |s|);
    assert s[k + 1..] == s[k + 1..|s|];
  }

  lemma MatchIsScanned(s: string, i: int, k: int)
    requires 0 < i && i + 1 < k && k + 1 < |s| && s[i] == '@' && s[k] == '.'
    requires AllEmailChars(s[..i]) && AllEmailChars(s[i + 1..k]) && AllEmailChars(s[k + 1..])
    ensures ValidateEmail(s)
  {
    SliceIsRange(s, 0, i);
    assert s[..i] == s[0..i];
    IndexOfAt(s, '@', i);
    SliceIsRange(s, i + 1, k);
    SliceIsRange(s, k + 1, |s|);
    assert s[k + 1..] == s[k + 1..|s|];
    SliceIsRange(s, i + 1, |s|);
    assert s[i + 1..] == s[i + 1..|s|];
    assert s[i + 2..|s| - 1][k - i - 2] == '.';
  }

  /** A valid address has exactly one '@', no white space, and a non-empty local part. */
  lemma ValidEmailShape(s: string)
    requires ValidateEmail(s)
    ensures exists i :: 0 < i < |s| && s[i] == '@' && forall j :: 0 <= j < |s| && j != i ==> EmailChar(s[j])
    ensures forall j :: 0 <= j < |s| ==> !IsWhitespace(s[j])
  {
    var at := IndexOf(s, '@');
    forall j | 0 <= j < |s| && j != at ensures EmailChar(s[j]) {
      if j < at {
        assert s[j] == s[..at][j];
      } else {
        assert s[j] == s[at + 1..][j - at - 1];
      }
    }
  }

  /** A valid address is never blank, so the "required" check cannot fire for it. */
  lemma ValidIsNotBlank(s: string)
    ensures ValidateEmail(s) ==> !IsBlank(s)
  {
    if ValidateEmail(s) {
      ValidEmailShape(s);
      BlankIffAllWhitespace(s);
      assert !IsWhitespace(s[0]);
    }
  }

  /** `handleEmailBlur`: the error the field shows after it loses focus ("" for none). */
  function BlurError(email: string): (error: string)
    ensures error == RequiredMessage <==> IsBlank(email)
    ensures error == "" <==> ValidateEmail(email)
    ensures error == InvalidMessage <==> !IsBlank(email) && !ValidateEmail(email)
  {
    ValidIsNotBlank(email);
    if IsBlank(email) then RequiredMessage
    else if !ValidateEmail(email) then InvalidMessage
    else ""
  }

  /** `handleEmailChange`: the error is cleared only when one is shown and the new value is valid. */
  function ChangeError(error: string, value: string): (after: string)
    ensures after == "" <==> error == "" || ValidateEmail(value)
    ensures after != "" ==> after == error
  {
    if error != "" && ValidateEmail(value) then "" else error
  }

  /** The modal's field state. */
  datatype ModalState = ModalState(email: string, emailError: string, isLoading: bool, mounted: bool)

  const Initial := ModalState("", "", false, false)

  /**
   * `handleSubmit`: a blank address sets the "required" error, an invalid one
   * the "invalid" error, and neither starts loading; a valid one starts it.
   */
  function Submit(s: ModalState): (t: ModalState)
    ensures t.email == s.email && t.mounted == s.mounted
    ensures t.isLoading <==> s.isLoading || ValidateEmail(s.email)
    ensures !ValidateEmail(s.email) ==> t.emailError == BlurError(s.email) && t.isLoading == s.isLoading
    ensures ValidateEmail(s.email) ==> t.emailError == s.emailError
  {
    if IsBlank(s.email) then s.(emailError := RequiredMessage)
    else if !ValidateEmail(s.email) then s.(emailError := InvalidMessage)
    else s.(isLoading := true)
  }

  /** Nothing is drawn unless the modal is open and has mounted. */
  predicate Visible(isOpen: bool, s: ModalState) {
    isOpen && s.mounted
  }

  /**
   * The modal draws nothing before its mount effect has run, whatever
   * `isOpen` says; once mounted it is drawn exactly while it is open.
   */
  lemma VisibleOnlyAfterMount(isOpen: bool, s: ModalState)
    ensures !Visible(isOpen, Initial)
    ensures Visible(isOpen, s.(mounted := true)) <==> isOpen
  {
  }

  /**
   * Padding a valid address with spaces gets it past the "required" check,
   * which trims, but not past validation, which does not.
   */
  lemma PaddedAddressIsInvalid(e: string)
    requires ValidateEmail(e)
    ensures !IsBlank(" " + e + " ")
    ensures !ValidateEmail(" " + e + " ")
    ensures BlurError(" " + e + " ") == InvalidMessage
  {
    var p := " " + e + " ";
    ValidIsNotBlank(e);
    ValidEmailShape(e);
    BlankIffAllWhitespace(p);
    assert !IsWhitespace(p[1]) by { assert p[1] == e[0]; }
    var at := IndexOf(p, '@');
    if 0 < at {
      assert !EmailChar(p[..at][0]);
    }
  }

  /** Typing can only clear the error, never set one; blurring afterwards gives the full verdict. */
  lemma ChangeThenBlur(error: string, value: string)
    ensures ChangeError(error, value) in {"", error}
    ensures BlurError(value) == "" <==> ValidateEmail(value)
  {
  }

  /** The modal with its state held in fields, as React holds it. */
  class Modal {
    var email: string
    var emailError: string
    var isLoading: bool
    var mounted: bool

    function State(): ModalState
      reads this
    {
      ModalState(email, emailError, isLoading, mounted)
    }

    constructor ()
      ensures State() == Initial
    {
      email := "";
      emailError := "";
      isLoading := false;
      mounted := false;
    }

    /** The mount effect. */
    method Mount()
      modifies this
      ensures State() == old(State()).(mounted := true)
    {
      mounted := true;
    }

    method EmailChange(value: string)
      modifies this
      ensures State() == old(State()).(email := value, emailError := ChangeError(old(emailError), value))
    {
      email := value;
      if emailError != "" && ValidateEmail(value) {
        emailError := "";
      }
    }

    method EmailBlur()
      modifies this
      ensures State() == old(State()).(emailError := BlurError(old(email)))
    {
      if IsBlank(email) {
        emailError := RequiredMessage;
      } else if !ValidateEmail(email) {
        emailError := InvalidMessage;
      } else {
        emailError := "";
      }
    }

    /** Returns whether the simulated login was started. */
    method HandleSubmit() returns (started: bool)
      modifies this
      ensures State() == Submit(old(State()))
      ensures started <==> ValidateEmail(old(email))
    {
      ghost var s := State();
      ValidIsNotBlank(email);
      var blank, valid := IsBlank(email), ValidateEmail(email);
      if blank {
        emailError := RequiredMessage;
        started := false;
        assert State() == s.(emailError := RequiredMessage);
      } else if !valid {
        emailError := InvalidMessage;
        started := false;
        assert State() == s.(emailError := InvalidMessage);
      } else {
        isLoading := true;
        started := true;
        assert State() == s.(isLoading := true);
      }
    }
  }
}
