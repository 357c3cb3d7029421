/** The login and signup form (src/components/auth/AuthForm.tsx): the three
    field checks, the unanchored email pattern, editing a field, and the
    submit that hands the data on only when nothing is wrong. */
module AuthForm {
  import opened Common

  // ---------------------------------------------------------------------
  // The email pattern \S+@\S+\.\S+ (no anchors: it may match anywhere)
  // ---------------------------------------------------------------------

  /** s[a..b] is a non-empty run of non-whitespace characters. */
  predicate NonSpaceRun(s: string, a: int, b: int) {
    0 <= a < b <= |s| && forall k :: a <= k < b ==> !IsSpace(s[k])
  }

  /** The pattern matches s[i..j] with its `@` at `at` and its `.` at `dot`. */
  predicate EmailMatch(s: string, i: int, at: int, dot: int, j: int) {
    && NonSpaceRun(s, i, at) && 0 <= at < |s| && s[at] == '@'
    && NonSpaceRun(s, at + 1, dot) && 0 <= dot < |s| && s[dot] == '.'
    && NonSpaceRun(s, dot + 1, j)
  }

  /** What the regular expression's `test` answers. */
  ghost predicate MatchesEmailPattern(s: string) {
    exists i, at, dot, j :: EmailMatch(s, i, at, dot, j)
  }

  /** A `.` at `dot` can close a match whose `@` is at `at`. */
  predicate DotCloses(s: string, at: int, dot: int) {
    0 <= at && at + 1 < dot && dot + 1 < |s| && s[dot] == '.' && !IsSpace(s[dot + 1])
  }

  /** Scans the run of non-whitespace from k for a `.` that closes a match
      whose `@` is at `at`. */
  function DotFrom(s: string, at: nat, k: nat): bool
    requires at < k <= |s|
    decreases |s| - k
  {
    if k == |s| || IsSpace(s[k]) then false
    else if DotCloses(s, at, k) then true
    else DotFrom(s, at, k + 1)
  }

  /** Scans for an `@` after a non-whitespace character from which a closing
      `.` can be reached. */
  function ScanFrom(s: string, at: nat): bool
    requires at <= |s|
    decreases |s| - at
  {
    if at == |s| then false
    else if 0 < at && s[at] == '@' && !IsSpace(s[at - 1]) && DotFrom(s, at, at + 1) then true
    else ScanFrom(s, at + 1)
  }

  /** The decision the form makes, proved to be the pattern's answer. */
  function EmailLooksValid(s: string): (r: bool)
    ensures r <==> MatchesEmailPattern(s)
  {
    ScanFromIff(s, 0);
    ShortMatchIff(s);
    ScanFrom(s, 0)
  }

  /** The shortest match: one character before `@`, one after the `.`. */
  predicate ShortMatch(s: string, at: int, dot: int) {
    0 < at < |s| && s[at] == '@' && !IsSpace(s[at - 1]) && DotCloses(s, at, dot)
    && forall m :: at + 1 <= m <= dot ==> !IsSpace(s[m])
  }

  lemma {:induction false} DotFromIff(s: string, at: nat, k: nat)
    requires at < k <= |s|
    ensures DotFrom(s, at, k) <==>
      exists dot :: k <= dot && DotCloses(s, at, dot) && forall m :: k <= m <= dot ==> !IsSpace(s[m])
    decreases |s| - k
  {
    if k == |s| || IsSpace(s[k]) {
    } else if DotCloses(s, at, k) {
      assert forall m :: k <= m <= k ==> !IsSpace(s[m]);
    } else {
      DotFromIff(s, at, k + 1);
      if exists dot :: k <= dot && DotCloses(s, at, dot) && forall m :: k <= m <= dot ==> !IsSpace(s[m]) {
        var dot :| k <= dot && DotCloses(s, at, dot) && forall m :: k <= m <= dot ==> !IsSpace(s[m]);
        assert k + 1 <= dot;
      }
    }
  }

  lemma {:induction false} ScanFromIff(s: string, start: nat)
    requires start <= |s|
    ensures ScanFrom(s, start) <==> exists at, dot :: start <= at && ShortMatch(s, at, dot)
    decreases |s| - start
  {
    if start < |s| {
      ScanFromIff(s, start + 1);
      var here := 0 < start && s[start] == '@' && !IsSpace(s[start - 1]);
      if here {
        DotFromIff(s, start, start + 1);
      }
      if exists at, dot :: start <= at && ShortMatch(s, at, dot) {
        var at, dot :| start <= at && ShortMatch(s, at, dot);
        if at != start {
          assert start + 1 <= at;
        }
      }
      if here && DotFrom(s, start, start + 1) {
        var dot :| start + 1 <= dot && DotCloses(s, start, dot) && forall m :: start + 1 <= m <= dot ==> !IsSpace(s[m]);
        assert ShortMatch(s, start, dot);
      }
    }
  }

  /** A match anywhere shrinks to a shortest one, and a shortest one is a match. */
  lemma ShortMatchIff(s: string)
    ensures (exists at, dot :: 0 <= at && ShortMatch(s, at, dot)) <==> MatchesEmailPattern(s)
  {
    if exists at, dot :: 0 <= at && ShortMatch(s, at, dot) {
      var at, dot :| 0 <= at && ShortMatch(s, at, dot);
      assert EmailMatch(s, at - 1, at, dot, dot + 2);
    }
    if MatchesEmailPattern(s) {
      var i, at, dot, j :| EmailMatch(s, i, at, dot, j);
      assert ShortMatch(s, at, dot);
    }
  }

  /** The pattern is unanchored: text around a valid address does not stop
      it matching. */
  lemma PatternIgnoresSurroundings(pre: string, s: string, post: string)
    requires MatchesEmailPattern(s)
    ensures MatchesEmailPattern(pre + s + post)
  {
    var i, at, dot, j :| EmailMatch(s, i, at, dot, j);
    var t := pre + s + post;
    var d := |pre|;
    assert forall k :: 0 <= k < |s| ==> t[d + k] == s[k];
    assert EmailMatch(t, d + i, d + at, d + dot, d + j);
  }

  // ---------------------------------------------------------------------
  // Validation
  // ---------------------------------------------------------------------

  datatype AuthMode = Login | Signup

  /** The keys of the error dictionary (the inputs' names). */
  datatype AuthField = NameField | EmailField | PasswordField

  const NameRequired: string := "Name is required"
  const EmailRequired: string := "Email is required"
  const EmailInvalid: string := "Email is invalid"
  const PasswordRequired: string := "Password is required"
  const PasswordTooShort: string := "Password must be at least 6 characters"

  /** `validateForm`: builds the error dictionary one field at a time. */
  method ValidateAuthForm(mode: AuthMode, name: string, email: string, password: string)
    returns (errors: map<AuthField, string>, valid: bool)
    ensures NameField in errors <==> mode == Signup && IsBlank(name)
    ensures NameField in errors ==> errors[NameField] == NameRequired
    ensures IsBlank(email) ==> EmailField in errors && errors[EmailField] == EmailRequired
    ensures !IsBlank(email) ==>
      (EmailField in errors <==> !MatchesEmailPattern(email)) &&
      (EmailField in errors ==> errors[EmailField] == EmailInvalid)
    ensures password == "" ==> PasswordField in errors && errors[PasswordField] == PasswordRequired
    ensures password != "" ==>
      (PasswordField in errors <==> |password| < 6) &&
      (PasswordField in errors ==> errors[PasswordField] == PasswordTooShort)
    ensures valid <==> errors == map[]
    ensures valid <==> AuthFormValid(mode, name, email, password)
  {
    TrimEmptyIffBlank(name);
    TrimEmptyIffBlank(email);
    errors := map[];
    if mode == Signup && Trim(name) == "" {
      errors := errors[NameField := NameRequired];
    }
    if Trim(email) == "" {
      errors := errors[EmailField := EmailRequired];
    } else if !EmailLooksValid(email) {
      errors := errors[EmailField := EmailInvalid];
    }
    if password == "" {
      errors := errors[PasswordField := PasswordRequired];
    } else if |password| < 6 {
      errors := errors[PasswordField := PasswordTooShort];
    }
    valid := |errors| == 0;
    if !valid {
      ghost var f :| f in errors;
    }
  }

  /** A login form is never held up by the name. */
  ghost predicate AuthFormValid(mode: AuthMode, name: string, email: string, password: string) {
    && (mode == Signup ==> !IsBlank(name))
    && !IsBlank(email) && MatchesEmailPattern(email)
    && |password| >= 6
  }

  // ---------------------------------------------------------------------
  // The form
  // ---------------------------------------------------------------------

  /** What the form hands to its `onSubmit`. */
  datatype AuthFormData = AuthFormData(name: string, email: string, password: string)

  class AuthForm {
    const mode: AuthMode
    var name: string
    var email: string
    var password: string
    var errors: map<AuthField, string>

    constructor (m: AuthMode)
      ensures mode == m && name == "" && email == "" && password == "" && errors == map[]
    {
      mode, name, email, password, errors := m, "", "", "", map[];
    }

    /** `handleChange`: sets the named field; the field's own error goes away
        if it held a message, and no other error changes. */
    method HandleChange(field: AuthField, value: string)
      modifies this
      ensures field == NameField ==> name == value && email == old(email) && password == old(password)
      ensures field == EmailField ==> email == value && name == old(name) && password == old(password)
      ensures field == PasswordField ==> password == value && name == old(name) && email == old(email)
      ensures field in old(errors) && old(errors)[field] != "" ==> errors == old(errors) - {field}
      ensures !(field in old(errors) && old(errors)[field] != "") ==> errors == old(errors)
    {
      if field == NameField {
        name := value;
      } else if field == EmailField {
        email := value;
      } else {
        password := value;
      }
      if field in errors && errors[field] != "" {
        errors := errors - {field};
      }
    }

    /** `handleSubmit`: validates, then hands the data on only when valid. */
    method HandleSubmit() returns (submitted: Option<AuthFormData>)
      modifies this`errors
      ensures submitted.Some? <==> errors == map[]
      ensures submitted.Some? <==> AuthFormValid(mode, name, email, password)
      ensures submitted.Some? ==> submitted.value == AuthFormData(name, email, password)
    {
      var valid;
      errors, valid := ValidateAuthForm(mode, name, email, password);
      if valid {
        submitted := Some(AuthFormData(name, email, password));
      } else {
        submitted := None;
      }
    }
  }
}
