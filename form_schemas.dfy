/** The form schemas the client checks before it sends a request. A `.required()` string is a
    non-empty one; `.min(n)` and `.max(n)` compare JavaScript's `length` (UTF-16 code units),
    while the server's `isLength` counts characters less presentation selectors; the schema
    library's e-mail test is a parameter `isEmail`. */
module FormSchemas {
  import opened Common
  import opened Tables
  import opened PasswordRule
  import Admin

  /** `.string().required()`: present and not empty. */
  predicate Required(s: string) { s != "" }

  /** The password field of every form with the rule: 8 to 16 code units and the pattern. */
  predicate PasswordFieldValid(p: string)
  {
    Required(p) && 8 <= Utf16Length(p) <= 16 && MatchesPasswordPattern(p)
  }

  /** The address field: required, at most 400 code units. */
  predicate AddressFieldValid(a: string)
  {
    Required(a) && Utf16Length(a) <= 400
  }

  datatype RegisterForm = RegisterForm(name: string, email: string, password: string, address: string)

  /** registerSchema: name of 20 to 60 code units, an e-mail, the password rule, and an
      address of 1 to 400 code units. */
  predicate RegisterValid(f: RegisterForm, isEmail: string -> bool)
  {
    && Required(f.name) && 20 <= Utf16Length(f.name) <= 60
    && Required(f.email) && isEmail(f.email)
    && PasswordFieldValid(f.password)
    && AddressFieldValid(f.address)
  }

  datatype LoginForm = LoginForm(email: string, password: string)

  /** loginSchema: an e-mail and any non-empty password. */
  predicate LoginValid(f: LoginForm, isEmail: string -> bool)
  {
    Required(f.email) && isEmail(f.email) && Required(f.password)
  }

  datatype PasswordChange = PasswordChange(currentPassword: string, newPassword: string, confirmPassword: string)

  /** updatePasswordSchema: the current password, a new one that follows the password rule, and
      a confirmation equal to the new one. */
  predicate UpdatePasswordValid(f: PasswordChange)
  {
    && Required(f.currentPassword)
    && PasswordFieldValid(f.newPassword)
    && Required(f.confirmPassword) && f.confirmPassword == f.newPassword
  }

  /** createUserSchema: the registration rules plus one of the three roles. */
  predicate CreateUserValid(f: Admin.UserForm, isEmail: string -> bool)
  {
    && RegisterValid(RegisterForm(f.name, f.email, f.password, f.address), isEmail)
    && Required(f.role) && f.role in Roles
  }

  /** createStoreSchema: name of 2 to 100 code units, store and owner e-mails, and an address of
      1 to 400 code units. */
  predicate CreateStoreValid(f: Admin.StoreForm, isEmail: string -> bool)
  {
    && Required(f.name) && 2 <= Utf16Length(f.name) <= 100
    && Required(f.email) && isEmail(f.email)
    && AddressFieldValid(f.address)
    && Required(f.ownerEmail) && isEmail(f.ownerEmail)
  }

  /** ratingSchema: `number().min(1).max(5).integer()`, a whole number from 1 to 5. */
  predicate FormRatingValid(x: real)
  {
    1.0 <= x <= 5.0 && x.Floor as real == x
  }

  /** Text on which both length measures agree: no astral character and no presentation
      selector. */
  predicate OneUnitText(s: string)
  {
    CountWhere(s, IsAstral) == 0 && CountWhere(s, IsPresentationSelector) == 0
  }

  /** A user the form accepts passes the server's create-user validators, provided the form's
      e-mail test is no more lenient than the server's and the name and password are text on
      which the two length measures agree. */
  lemma CreateUserFormPassesServer(f: Admin.UserForm, formEmail: string -> bool, serverEmail: string -> bool)
    requires forall e :: formEmail(e) ==> serverEmail(e)
    requires OneUnitText(f.name) && OneUnitText(f.password)
    requires CreateUserValid(f, formEmail)
    ensures Admin.ValidUserForm(f, serverEmail)
  {
  }

  /** Without that proviso the implication fails: a name of 19 ordinary characters followed by
      U+FE0F is 20 code units long for the form but 19 characters for `isLength`, so the form
      sends a user the server refuses with 400. */
  lemma SelectorNameSplitsFormAndServer(f: Admin.UserForm, base: string, isEmail: string -> bool)
    requires |base| == 19 && OneUnitText(base) && f.name == base + "\U{FE0F}"
    requires Required(f.email) && isEmail(f.email)
    requires PasswordFieldValid(f.password) && AddressFieldValid(f.address) && f.role in Roles
    ensures CreateUserValid(f, isEmail) && !Admin.ValidUserForm(f, isEmail)
  {
    var tail := "\U{FE0F}";
    assert tail[1..] == [];
    CountWhereAppend(base, tail, IsAstral);
    CountWhereAppend(base, tail, IsPresentationSelector);
  }

  /** For stores the form is always at least as strict as the server: a name of two or more code
      units is not empty, and an address within 400 code units is within 400 characters. */
  lemma CreateStoreFormPassesServer(f: Admin.StoreForm, formEmail: string -> bool, serverEmail: string -> bool)
    requires forall e :: formEmail(e) ==> serverEmail(e)
    requires CreateStoreValid(f, formEmail)
    ensures Admin.ValidStoreForm(f, serverEmail)
  {
  }

  /** The server is laxer than the form about addresses: a user the form accepts is still
      accepted by the server with the address left empty, which the form refuses. */
  lemma ServerAcceptsEmptyAddress(f: Admin.UserForm, formEmail: string -> bool, serverEmail: string -> bool)
    requires forall e :: formEmail(e) ==> serverEmail(e)
    requires OneUnitText(f.name) && OneUnitText(f.password)
    requires CreateUserValid(f, formEmail)
    ensures Admin.ValidUserForm(f.(address := ""), serverEmail)
    ensures !CreateUserValid(f.(address := ""), formEmail)
  {
    CreateUserFormPassesServer(f, formEmail, serverEmail);
  }

  /** Login checks far less than registration: every registered password passes login, and so
      does a one-character password that registration refuses. */
  lemma LoginWeakerThanRegister(f: RegisterForm, isEmail: string -> bool)
    requires RegisterValid(f, isEmail)
    ensures LoginValid(LoginForm(f.email, f.password), isEmail)
    ensures LoginValid(LoginForm(f.email, "x"), isEmail)
    ensures !RegisterValid(RegisterForm(f.name, f.email, "x", f.address), isEmail)
  {
  }

  /** A confirmed change always confirms a password that follows the rule. */
  lemma ConfirmedPasswordIsValid(f: PasswordChange)
    requires UpdatePasswordValid(f)
    ensures PasswordFieldValid(f.confirmPassword) && MatchesPasswordPattern(f.confirmPassword)
    ensures 8 <= Utf16Length(f.confirmPassword) <= 16
  {
  }

  /** The star the modal hands on travels as a JSON number `n`, which the server's validator
      reads as the text `String(n)`. The form's rule and the server's accept the same whole
      numbers, and the number the server stores is the one the form checked. */
  lemma RatingRulesAgree(n: int)
    ensures FormRatingValid(n as real) <==> IsRatingValue(NumberText(n))
    ensures IsRatingValue(NumberText(n)) ==> RatingOf(NumberText(n)) == n
  {
    NumberTextRoundTrip(n);
  }
}
