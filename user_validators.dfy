/** The client-side string validators of src-tauri/src/validators/user_validators.rs.
    Regular expressions are modelled as explicit predicates; characters and
    lengths are counted per `char`, and `\d` as the ASCII digits. */
module UserValidators {
  import opened Wrappers
  import opened Text

  /** A `validator::ValidationError`: a code and a human-readable message. */
  datatype ValidationError = ValidationError(code: string, message: string)

  const NoSpacesMessage: string := "Username cannot contain spaces"
  const PasswordFormatMessage: string :=
    "Password must be 10-20 characters and must contain lower and upper letters, numbers, and special characters (@$!%*?&)"
  const PasswordRequirementMessage: string :=
    "Password must include at least one uppercase letter, one lowercase letter, one number, and one special character (@$!%*?&)"
  const PhoneMessage: string := "Phone number must be in the format +123-1234567890"

  /** Fails with `no_spaces` exactly when the name contains the space character. */
  function ValidateNoSpaces(username: string): (r: Result<(), ValidationError>)
    ensures r.Err? <==> ContainsChar(username, ' ')
    ensures r.Err? ==> r.error == ValidationError("no_spaces", NoSpacesMessage)
  {
    if IndexOf(username, ' ').Some? then Err(ValidationError("no_spaces", NoSpacesMessage)) else Ok(())
  }

  /** Other whitespace is allowed in a user name. */
  lemma TabsAreNotSpaces()
    ensures ValidateNoSpaces("a\tb").Ok?
    ensures ValidateNoSpaces("a b").Err?
  {
    assert !ContainsChar("a\tb", ' ') by {
      assert forall i :: 0 <= i < 3 ==> "a\tb"[i] != ' ';
    }
    assert "a b"[1] == ' ';
  }

  const PasswordSpecials: string := "@$!%*?&_-"

  predicate IsSpecial(c: char) { ContainsChar(PasswordSpecials, c) }

  /** One character of the class `[A-Za-z\d@$!%*?&_-]`. */
  predicate IsPasswordChar(c: char) {
    IsUpperAscii(c) || IsLowerAscii(c) || IsDigit(c) || IsSpecial(c)
  }

  /** `^[A-Za-z\d@$!%*?&_-]{10,20}$` */
  predicate PasswordFormatOk(p: string) {
    10 <= |p| <= 20 && forall i :: 0 <= i < |p| ==> IsPasswordChar(p[i])
  }

  predicate HasLowercase(p: string) { exists i :: 0 <= i < |p| && IsLowerAscii(p[i]) }
  predicate HasUppercase(p: string) { exists i :: 0 <= i < |p| && IsUpperAscii(p[i]) }
  predicate HasDigit(p: string) { exists i :: 0 <= i < |p| && IsDigit(p[i]) }
  predicate HasSpecial(p: string) { exists i :: 0 <= i < |p| && IsSpecial(p[i]) }

  predicate HasAllClasses(p: string) {
    HasLowercase(p) && HasUppercase(p) && HasDigit(p) && HasSpecial(p)
  }

  /** The format check comes first; only a well-formed password is checked for
      the four character classes. */
  function ValidatePassword(p: string): (r: Result<(), ValidationError>)
    ensures r.Ok? <==> PasswordFormatOk(p) && HasAllClasses(p)
    ensures !PasswordFormatOk(p) ==> r == Err(ValidationError("invalid_password_format", PasswordFormatMessage))
    ensures PasswordFormatOk(p) && !HasAllClasses(p) ==>
      r == Err(ValidationError("invalid_password_requirement", PasswordRequirementMessage))
  {
    if !PasswordFormatOk(p) then Err(ValidationError("invalid_password_format", PasswordFormatMessage))
    else if !HasAllClasses(p) then Err(ValidationError("invalid_password_requirement", PasswordRequirementMessage))
    else Ok(())
  }

  /** A 10-character password with all four classes passes. */
  lemma PasswordAccepted()
    ensures ValidatePassword("Abcdefgh1!").Ok?
  {
    var good := "Abcdefgh1!";
    assert IsSpecial(good[9]) by { assert PasswordSpecials[2] == '!'; }
    forall i | 0 <= i < |good| ensures IsPasswordChar(good[i]) {
      if i == 0 {
        assert IsUpperAscii(good[i]);
      } else if i < 8 {
        assert IsLowerAscii(good[i]);
      } else if i == 8 {
        assert IsDigit(good[i]);
      }
    }
    assert IsUpperAscii(good[0]) && IsLowerAscii(good[1]) && IsDigit(good[8]);
  }

  /** A 21-character password fails the format check even when every class is present. */
  lemma PasswordTooLong()
    ensures ValidatePassword("Abcdefgh1!xxxxxxxxxxx") == Err(ValidationError("invalid_password_format", PasswordFormatMessage))
  {
    assert |"Abcdefgh1!xxxxxxxxxxx"| == 21;
  }

  /** A well-formed password without an upper-case letter fails the class check. */
  lemma PasswordMissingUppercase()
    ensures ValidatePassword("abcdefgh1!") == Err(ValidationError("invalid_password_requirement", PasswordRequirementMessage))
  {
    var weak := "abcdefgh1!";
    assert IsSpecial(weak[9]) by { assert PasswordSpecials[2] == '!'; }
    forall i | 0 <= i < |weak| ensures IsPasswordChar(weak[i]) && !IsUpperAscii(weak[i]) {
      if i < 8 {
        assert IsLowerAscii(weak[i]);
      } else if i == 8 {
        assert IsDigit(weak[i]);
      }
    }
  }

  // ---------------------------------------------------------------------------
  // Phone numbers: `^(\+\d{1,3})?-\d{6,14}$`

  /** The optional country part: empty, or `+` followed by one to three digits. */
  predicate IsCountryPart(p: string) {
    p == [] || (p[0] == '+' && 2 <= |p| <= 4 && AllDigits(p[1..]))
  }

  predicate IsSubscriberPart(n: string) {
    6 <= |n| <= 14 && AllDigits(n)
  }

  /** The pattern read as a grammar: some split of the input into country part,
      dash and subscriber digits. */
  ghost predicate PhoneShape(s: string) {
    exists k :: 0 <= k < |s| && s[k] == '-' && IsCountryPart(s[..k]) && IsSubscriberPart(s[k+1..])
  }

  /** The matcher: split at the first dash. */
  function PhoneMatches(s: string): bool {
    match IndexOf(s, '-')
    case None => false
    case Some(k) => IsCountryPart(s[..k]) && IsSubscriberPart(s[k+1..])
  }

  lemma NoDashBeforeCountryEnd(s: string, k: nat)
    requires k <= |s| && IsCountryPart(s[..k])
    ensures forall i :: 0 <= i < k ==> s[i] != '-'
  {
    forall i | 0 <= i < k ensures s[i] != '-' {
      if i > 0 {
        assert s[i] == s[..k][1..][i - 1];
      }
    }
  }

  /** The matcher accepts exactly the strings of the grammar: a country part
      holds no dash, so the first dash is the only possible split. */
  lemma PhoneMatchesShape(s: string)
    ensures PhoneMatches(s) <==> PhoneShape(s)
  {
    if PhoneShape(s) {
      var k :| 0 <= k < |s| && s[k] == '-' && IsCountryPart(s[..k]) && IsSubscriberPart(s[k+1..]);
      assert ContainsChar(s, '-');
      NoDashBeforeCountryEnd(s, k);
    }
  }

  function ValidatePhone(phone: string): (r: Result<(), ValidationError>)
    ensures r.Ok? <==> PhoneMatches(phone)
    ensures r.Err? ==> r.error == ValidationError("invalid_phone", PhoneMessage)
  {
    if PhoneMatches(phone) then Ok(()) else Err(ValidationError("invalid_phone", PhoneMessage))
  }

  /** Any country part, a dash and a subscriber part make a valid number. */
  lemma PhoneOfParts(country: string, subscriber: string)
    requires IsCountryPart(country) && IsSubscriberPart(subscriber)
    ensures PhoneMatches(country + "-" + subscriber)
  {
    var s := country + "-" + subscriber;
    assert s[..|country|] == country;
    NoDashBeforeCountryEnd(s, |country|);
    assert s[|country|] == '-';
    assert IndexOf(s, '-') == Some(|country|);
    assert s[|country| + 1..] == subscriber;
  }

  /** The format the error message advertises is accepted. */
  lemma PhoneAccepts()
    ensures ValidatePhone("+12-123456").Ok?
  {
    assert AllDigits("+12"[1..]);
    PhoneOfParts("+12", "123456");
    assert "+12" + "-" + "123456" == "+12-123456";
  }

  /** A country code has at most three digits. */
  lemma PhoneRejectsLongCountryCode()
    ensures ValidatePhone("+1234-123456").Err?
  {
    var s := "+1234-123456";
    assert s[0] != '-' && s[1] != '-' && s[2] != '-' && s[3] != '-' && s[4] != '-' && s[5] == '-';
    assert IndexOf(s, '-') == Some(5);
  }

  /** A country code needs its `+`. */
  lemma PhoneRejectsBareCountryCode()
    ensures ValidatePhone("12-123456").Err?
  {
    var s := "12-123456";
    assert s[0] != '-' && s[1] != '-' && s[2] == '-';
    assert IndexOf(s, '-') == Some(2);
  }
}
