/** The registration form's submit handler (js/signup.js): every field is
    checked, each failing check flags its field, and the request is sent only
    when nothing was flagged. The e-mail pattern `^[^\s@]+@[^\s@]+\.[^\s@]+$`
    is given both as a declarative shape and as the matcher the form runs. */
module SignupForm {
  import opened Common
  import Accounts

  /** The form's fields as typed (before any trimming). */
  datatype Form = Form(
    firstName: string, middleName: string, lastName: string, dateOfBirth: string,
    email: string, contactNumber: string, username: string,
    password: string, confirmPassword: string, termsAccepted: bool)

  datatype FormField =
    | FirstName | LastName | DateOfBirth | Email | ContactNumber
    | Username | Password | ConfirmPassword | Terms

  // ---------------------------------------------------------------------------
  // The e-mail pattern

  /** `[^\s@]+`: a non-empty run without white space or `@`. */
  predicate Word(w: string) {
    w != [] && forall i :: 0 <= i < |w| ==> !IsSpace(w[i]) && w[i] != '@'
  }

  /** What the pattern accepts: word `@` word `.` word, with nothing around it. */
  ghost predicate EmailShape(s: string) {
    exists a, b, c :: s == a + "@" + b + "." + c && Word(a) && Word(b) && Word(c)
  }

  predicate NoSpace(s: string) {
    forall i :: 0 <= i < |s| ==> !IsSpace(s[i])
  }

  /** A dot with at least one character on each side. */
  predicate InnerDot(d: string) {
    exists j :: 1 <= j < |d| - 1 && d[j] == '.'
  }

  /** The matcher: no white space, one `@` after at least one character, and
      a dot inside what follows it. */
  predicate EmailMatches(s: string) {
    var i := IndexOf(s, '@');
    NoSpace(s) && 1 <= i < |s| && '@' !in s[i + 1..] && InnerDot(s[i + 1..])
  }

  /** The matcher accepts exactly the strings of the pattern's shape. */
  lemma EmailMatchesShape(s: string)
    ensures EmailMatches(s) <==> EmailShape(s)
  {
    if EmailMatches(s) {
      MatchesShape(s);
    }
    if EmailShape(s) {
      var a, b, c :| s == a + "@" + b + "." + c && Word(a) && Word(b) && Word(c);
      ShapeMatches(a, b, c);
    }
  }

  lemma MatchesShape(s: string)
    requires EmailMatches(s)
    ensures EmailShape(s)
  {
    var i := IndexOf(s, '@');
    var d := s[i + 1..];
    var j :| 1 <= j < |d| - 1 && d[j] == '.';
    forall k | i < k < |s| ensures s[k] != '@' {
      assert s[k] == d[k - i - 1];
    }
    WordSlice(s, 0, i);
    WordSlice(s, i + 1, i + 1 + j);
    WordSlice(s, i + 2 + j, |s|);
    Pieces(s, i, j);
    ShapeWitness(s, s[..i], s[i + 1..i + 1 + j], s[i + 2 + j..]);
  }

  /** Cutting at the `@` at i and the `.` j places after it. */
  lemma Pieces(s: string, i: nat, j: nat)
    requires i + 2 + j <= |s| && s[i] == '@' && s[i + 1 + j] == '.'
    ensures s == s[..i] + "@" + s[i + 1..i + 1 + j] + "." + s[i + 2 + j..]
  {
    assert s == s[..i] + [s[i]] + s[i + 1..i + 1 + j] + [s[i + 1 + j]] + s[i + 2 + j..];
  }

  lemma ShapeWitness(s: string, a: string, b: string, c: string)
    requires s == a + "@" + b + "." + c && Word(a) && Word(b) && Word(c)
    ensures EmailShape(s)
  {
  }

  /** A non-empty slice of a string without white space, and without `@`
      in that slice, is a word. */
  lemma WordSlice(s: string, lo: nat, hi: nat)
    requires lo < hi <= |s| && NoSpace(s)
    requires forall k :: lo <= k < hi ==> s[k] != '@'
    ensures Word(s[lo..hi])
  {
    forall k | 0 <= k < hi - lo ensures !IsSpace(s[lo..hi][k]) && s[lo..hi][k] != '@' {
      assert s[lo..hi][k] == s[lo + k];
    }
  }

  lemma ShapeMatches(a: string, b: string, c: string)
    requires Word(a) && Word(b) && Word(c)
    ensures EmailMatches(a + "@" + b + "." + c)
  {
    var s := a + "@" + b + "." + c;
    var d := b + "." + c;
    assert s == a + ['@'] + d;
    IndexOfPrefix(a, '@', d);
    assert s[|a| + 1..] == d;
    assert d[|b|] == '.';
    forall k | 0 <= k < |s| ensures !IsSpace(s[k]) {
      if k < |a| { assert s[k] == a[k]; }
      else if k == |a| { assert s[k] == '@'; }
      else if k < |a| + 1 + |b| { assert s[k] == b[k - |a| - 1]; }
      else if k == |a| + 1 + |b| { assert s[k] == '.'; }
      else { assert s[k] == c[k - |a| - 2 - |b|]; }
    }
    forall k | 0 <= k < |d| ensures d[k] != '@' {
      if k < |b| { assert d[k] == b[k]; }
      else if k > |b| { assert d[k] == c[k - |b| - 1]; }
    }
  }

  // ---------------------------------------------------------------------------
  // The checks

  /** Whether one field passes its check in the submit handler. */
  predicate FieldOk(form: Form, f: FormField) {
    match f
    case FirstName => Trim(form.firstName) != ""
    case LastName => Trim(form.lastName) != ""
    case DateOfBirth => form.dateOfBirth != ""
    case Email => Trim(form.email) != "" && EmailMatches(Trim(form.email))
    case ContactNumber => Utf16Length(Trim(form.contactNumber)) >= 10
    case Username => Utf16Length(Trim(form.username)) >= 4
    case Password => Utf16Length(form.password) >= 8
    case ConfirmPassword => form.password == form.confirmPassword
    case Terms => form.termsAccepted
  }

  /** Which fields the submit handler flagged with an error message. */
  datatype Flags = Flags(
    firstName: bool, lastName: bool, dateOfBirth: bool, email: bool,
    contactNumber: bool, username: bool, password: bool,
    confirmPassword: bool, terms: bool)

  const NoFlags: Flags := Flags(false, false, false, false, false, false, false, false, false)

  /** Whether a field is flagged in a set of flags. */
  predicate Flagged(flags: Flags, f: FormField) {
    match f
    case FirstName => flags.firstName
    case LastName => flags.lastName
    case DateOfBirth => flags.dateOfBirth
    case Email => flags.email
    case ContactNumber => flags.contactNumber
    case Username => flags.username
    case Password => flags.password
    case ConfirmPassword => flags.confirmPassword
    case Terms => flags.terms
  }

  /** The personal-information checks: first and last name present after
      trimming, date of birth present. Each result says whether its field
      is flagged; `ok` says none is. */
  method CheckPersonal(form: Form) returns (ok: bool, firstName: bool, lastName: bool, dateOfBirth: bool)
    ensures firstName <==> Trim(form.firstName) == ""
    ensures lastName <==> Trim(form.lastName) == ""
    ensures dateOfBirth <==> form.dateOfBirth == ""
    ensures ok <==> !firstName && !lastName && !dateOfBirth
  {
    ok, firstName, lastName, dateOfBirth := true, false, false, false;
    var first := Trim(form.firstName);
    if first == "" {
      firstName, ok := true, false;
    }
    var last := Trim(form.lastName);
    if last == "" {
      lastName, ok := true, false;
    }
    if form.dateOfBirth == "" {
      dateOfBirth, ok := true, false;
    }
  }

  /** The contact-information checks: the trimmed e-mail matches the pattern,
      the trimmed contact number has at least ten characters. */
  method CheckContact(form: Form) returns (ok: bool, email: bool, contactNumber: bool)
    ensures email <==> Trim(form.email) == "" || !EmailMatches(Trim(form.email))
    ensures contactNumber <==> Utf16Length(Trim(form.contactNumber)) < 10
    ensures ok <==> !email && !contactNumber
  {
    ok, email, contactNumber := true, false, false;
    var address := Trim(form.email);
    if address == "" || !EmailMatches(address) {
      email, ok := true, false;
    }
    var phone := Trim(form.contactNumber);
    if phone == "" || Utf16Length(phone) < 10 {
      contactNumber, ok := true, false;
    }
  }

  /** The account-information checks: a trimmed username of at least four
      characters, a password of at least eight, the same password typed
      twice, and the terms accepted. */
  method CheckAccount(form: Form) returns (ok: bool, username: bool, password: bool, confirmPassword: bool, terms: bool)
    ensures username <==> Utf16Length(Trim(form.username)) < 4
    ensures password <==> Utf16Length(form.password) < 8
    ensures confirmPassword <==> form.password != form.confirmPassword
    ensures terms <==> !form.termsAccepted
    ensures ok <==> !username && !password && !confirmPassword && !terms
  {
    ok, username, password, confirmPassword, terms := true, false, false, false, false;
    var name := Trim(form.username);
    if name == "" || Utf16Length(name) < 4 {
      username, ok := true, false;
    }
    if form.password == "" || Utf16Length(form.password) < 8 {
      password, ok := true, false;
    }
    if form.password != form.confirmPassword {
      confirmPassword, ok := true, false;
    }
    if !form.termsAccepted {
      terms, ok := true, false;
    }
  }

  /** The submit handler's checks, run one after another: each failing check
      flags its field and clears `isValid`; none stops the others. */
  method Validate(form: Form) returns (isValid: bool, flags: Flags)
    ensures forall f :: Flagged(flags, f) <==> !FieldOk(form, f)
    ensures isValid <==> forall f :: FieldOk(form, f)
    ensures isValid <==> flags == NoFlags
  {
    var personalOk, firstName, lastName, dateOfBirth := CheckPersonal(form);
    var contactOk, email, contactNumber := CheckContact(form);
    var accountOk, username, password, confirmPassword, terms := CheckAccount(form);
    isValid := personalOk && contactOk && accountOk;
    flags := Flags(firstName, lastName, dateOfBirth, email, contactNumber,
                   username, password, confirmPassword, terms);
    FlagsExactly(form, flags);
  }

  /** The per-field conditions of Validate are the field checks: a field is
      flagged exactly when its check fails, and no field is flagged exactly
      when every check passes. */
  lemma FlagsExactly(form: Form, flags: Flags)
    requires flags.firstName <==> Trim(form.firstName) == ""
    requires flags.lastName <==> Trim(form.lastName) == ""
    requires flags.dateOfBirth <==> form.dateOfBirth == ""
    requires flags.email <==> Trim(form.email) == "" || !EmailMatches(Trim(form.email))
    requires flags.contactNumber <==> Utf16Length(Trim(form.contactNumber)) < 10
    requires flags.username <==> Utf16Length(Trim(form.username)) < 4
    requires flags.password <==> Utf16Length(form.password) < 8
    requires flags.confirmPassword <==> form.password != form.confirmPassword
    requires flags.terms <==> !form.termsAccepted
    ensures forall f :: Flagged(flags, f) <==> !FieldOk(form, f)
    ensures flags == NoFlags <==> forall f :: FieldOk(form, f)
  {
    forall f ensures Flagged(flags, f) <==> !FieldOk(form, f) {
      match f
      case FirstName =>
      case LastName =>
      case DateOfBirth =>
      case Email =>
      case ContactNumber =>
      case Username =>
      case Password =>
      case ConfirmPassword =>
      case Terms =>
    }
    if forall f :: FieldOk(form, f) {
      assert FieldOk(form, FirstName) && FieldOk(form, LastName) && FieldOk(form, DateOfBirth);
      assert FieldOk(form, Email) && FieldOk(form, ContactNumber) && FieldOk(form, Username);
      assert FieldOk(form, Password) && FieldOk(form, ConfirmPassword) && FieldOk(form, Terms);
    }
  }

  /** The request body sent on a valid submit: trimmed names, e-mail,
      contact number and username, the date and password as typed. */
  function SignupBody(form: Form): Accounts.SignupRequest {
    Accounts.SignupRequest(
      Some(Trim(form.firstName)), Some(Trim(form.middleName)), Some(Trim(form.lastName)),
      Some(form.dateOfBirth), Some(Trim(form.email)), Some(Trim(form.contactNumber)),
      Some(Trim(form.username)), Some(form.password))
  }

  /** A form the page accepts also passes the server's username, password,
      name and contact-number checks, provided the username and password are
      plain text; the server trims again, and trimming twice changes nothing.
      (The e-mail and date checks on the server are other validators and are
      not claimed here.) */
  lemma AcceptedFormPassesServerChecks(form: Form, v: Accounts.Validators)
    requires forall f :: FieldOk(form, f)
    requires PlainText(Trim(form.username)) && PlainText(form.password)
    ensures Accounts.SignupFieldOk(SignupBody(form), v, Accounts.Username)
    ensures Accounts.SignupFieldOk(SignupBody(form), v, Accounts.Password)
    ensures Accounts.SignupFieldOk(SignupBody(form), v, Accounts.FirstName)
    ensures Accounts.SignupFieldOk(SignupBody(form), v, Accounts.LastName)
    ensures Accounts.SignupFieldOk(SignupBody(form), v, Accounts.ContactNumber)
  {
    assert FieldOk(form, Username) && FieldOk(form, Password) && FieldOk(form, FirstName);
    assert FieldOk(form, LastName) && FieldOk(form, ContactNumber);
    TrimIdempotent(form.username);
    TrimIdempotent(form.firstName);
    TrimIdempotent(form.lastName);
    TrimIdempotent(form.contactNumber);
    PlainLengths(Trim(form.username));
    PlainLengths(form.password);
  }

  /** Without the plain-text proviso the page and the server disagree: the
      page counts UTF-16 units, so a six-letter password followed by an emoji
      has length 8 in the browser, while the server counts 7 characters and
      refuses it. */
  lemma AstralPasswordPassesOnlyThePage(form: Form, v: Accounts.Validators)
    requires form.password == "abcdef\U{1F600}"
    ensures FieldOk(form, Password)
    ensures !Accounts.SignupFieldOk(SignupBody(form), v, Accounts.Password)
  {
    EmojiPasswordLengths();
    assert Accounts.Text(SignupBody(form).password) == form.password;
  }

  /** The two lengths of "abcdef" followed by an emoji. */
  lemma EmojiPasswordLengths()
    ensures Utf16Length("abcdef\U{1F600}") == 8 && ValidatorLength("abcdef\U{1F600}") == 7
  {
    assert Utf16Length("\U{1F600}") == 2 && ValidatorLength("\U{1F600}") == 1;
    assert Utf16Length("f\U{1F600}") == 3 && ValidatorLength("f\U{1F600}") == 2;
    assert Utf16Length("ef\U{1F600}") == 4 && ValidatorLength("ef\U{1F600}") == 3;
    assert Utf16Length("def\U{1F600}") == 5 && ValidatorLength("def\U{1F600}") == 4;
    assert Utf16Length("cdef\U{1F600}") == 6 && ValidatorLength("cdef\U{1F600}") == 5;
    assert Utf16Length("bcdef\U{1F600}") == 7 && ValidatorLength("bcdef\U{1F600}") == 6;
    assert Utf16Length("abcdef\U{1F600}") == 8 && ValidatorLength("abcdef\U{1F600}") == 7;
  }
}
