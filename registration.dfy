/** The sign-up form: the password strength meter, the field validation of
    validateForm and the way handleSubmit turns the outcome of register into
    messages. The strength effect runs whenever the password changes, so the
    page keeps the strength of the current password. */
module Registration {
  import opened Wrappers
  import opened Text
  import opened ShopData
  import opened Patterns
  import Session

  // ---------------------------------------------------------------------
  // Password strength

  /** The characters of the special-character class of the strength meter. */
  const SpecialChars := "!@#$%^&*()_+-=[]{};':\"\\|,.<>/?"

  predicate HasLower(pw: string) { exists i :: 0 <= i < |pw| && IsLower(pw[i]) }
  predicate HasUpper(pw: string) { exists i :: 0 <= i < |pw| && IsUpper(pw[i]) }
  predicate HasDigit(pw: string) { exists i :: 0 <= i < |pw| && IsDigit(pw[i]) }
  predicate HasSpecial(pw: string) { exists i :: 0 <= i < |pw| && pw[i] in SpecialChars }

  datatype Strength = Strength(score: nat, text: string, rules: seq<string>)

  function Point(b: bool): nat { if b then 1 else 0 }

  /** One point per satisfied criterion. */
  function Score(pw: string): nat {
    Point(|pw| >= 8) + Point(|pw| >= 12) + Point(HasLower(pw) && HasUpper(pw))
    + Point(HasDigit(pw)) + Point(HasSpecial(pw))
  }

  const Weak := "Слабый"
  const Medium := "Средний"
  const Strong := "Надежный"

  function StrengthText(score: nat): string {
    if score <= 2 then Weak else if score <= 4 then Medium else Strong
  }

  /** The names of the satisfied character criteria, in test order. */
  function Rules(pw: string): seq<string> {
    (if HasLower(pw) && HasUpper(pw) then ["lowerUpperCase"] else [])
    + (if HasDigit(pw) then ["hasNumber"] else [])
    + (if HasSpecial(pw) then ["hasSpecial"] else [])
  }

  /** checkPasswordStrength: adds up the points and collects the rules. */
  method CheckPasswordStrength(pw: string) returns (st: Strength)
    ensures st == Strength(Score(pw), StrengthText(Score(pw)), Rules(pw))
  {
    var score: nat := 0;
    var rules: seq<string> := [];
    if |pw| >= 8 {
      score := score + 1;
    }
    if |pw| >= 12 {
      score := score + 1;
    }
    if HasLower(pw) && HasUpper(pw) {
      score := score + 1;
      rules := rules + ["lowerUpperCase"];
    }
    if HasDigit(pw) {
      score := score + 1;
      rules := rules + ["hasNumber"];
    }
    if HasSpecial(pw) {
      score := score + 1;
      rules := rules + ["hasSpecial"];
    }
    var text := "";
    if score <= 2 {
      text := Weak;
    } else if score <= 4 {
      text := Medium;
    } else {
      text := Strong;
    }
    st := Strength(score, text, rules);
  }

  /** What the meter shows: nothing for an empty password. */
  function PasswordStrength(pw: string): Strength {
    if pw == "" then Strength(0, "", []) else Strength(Score(pw), StrengthText(Score(pw)), Rules(pw))
  }

  /** The score lies in [0, 5]; the rules account for every point that is
      not a length point; the text follows the bands 0–2, 3–4 and 5. */
  lemma StrengthBands(pw: string)
    ensures PasswordStrength(pw).score <= 5
    ensures pw != "" ==> PasswordStrength(pw).score == Point(|pw| >= 8) + Point(|pw| >= 12) + |PasswordStrength(pw).rules|
    ensures pw == "" ==> PasswordStrength(pw) == Strength(0, "", [])
    ensures pw != "" ==>
              var st := PasswordStrength(pw);
              && (st.score <= 2 <==> st.text == Weak)
              && (3 <= st.score <= 4 <==> st.text == Medium)
              && (st.score == 5 <==> st.text == Strong)
  {
  }

  /** Full marks need at least twelve characters and every character kind. */
  lemma StrongIff(pw: string)
    ensures Score(pw) == 5 <==> |pw| >= 12 && HasLower(pw) && HasUpper(pw) && HasDigit(pw) && HasSpecial(pw)
  {
  }

  /** Typing more characters never lowers the score. */
  lemma ScoreMonotone(pw: string, more: string)
    ensures Score(pw) <= Score(pw + more)
  {
    KindsKept(pw, more);
  }

  /** A character kind present in a prefix is present in the whole. */
  lemma KindsKept(pw: string, more: string)
    ensures HasLower(pw) ==> HasLower(pw + more)
    ensures HasUpper(pw) ==> HasUpper(pw + more)
    ensures HasDigit(pw) ==> HasDigit(pw + more)
    ensures HasSpecial(pw) ==> HasSpecial(pw + more)
  {
    var q := pw + more;
    if HasLower(pw) {
      var i :| 0 <= i < |pw| && IsLower(pw[i]);
      assert q[i] == pw[i];
    }
    if HasUpper(pw) {
      var i :| 0 <= i < |pw| && IsUpper(pw[i]);
      assert q[i] == pw[i];
    }
    if HasDigit(pw) {
      var i :| 0 <= i < |pw| && IsDigit(pw[i]);
      assert q[i] == pw[i];
    }
    if HasSpecial(pw) {
      var i :| 0 <= i < |pw| && pw[i] in SpecialChars;
      assert q[i] == pw[i];
    }
  }

  /** "123" scores a single point (a digit) and rates weak. */
  lemma DigitsOnlyWeak()
    ensures PasswordStrength("123") == Strength(1, Weak, ["hasNumber"])
  {
    var pw := "123";
    assert IsDigit(pw[0]);
    assert !HasLower(pw) && !HasUpper(pw);
    assert !HasSpecial(pw) by {
      forall i | 0 <= i < 3 ensures pw[i] !in SpecialChars {
      }
    }
  }

  // ---------------------------------------------------------------------
  // Field validation

  /** `[a-zA-Z0-9_]` */
  const WordClass := CharClass("_", false, true, true, false)

  /** `^[a-zA-Z0-9_]+$` */
  const UsernamePattern := [Plus(WordClass)]

  /** `[^\s@]` */
  const PlainClass := CharClass("@", true, false, false, true)

  /** `^[^\s@]+@[^\s@]+\.[^\s@]+$` */
  const EmailPattern := [Plus(PlainClass), One(Literal('@')), Plus(PlainClass), One(Literal('.')), Plus(PlainClass)]

  const UsernameMissing := "Введите имя пользователя"
  const UsernameShort := "Имя должно быть не менее 3 символов"
  const UsernameChars := "Только буквы, цифры и подчеркивание"
  const EmailMissing := "Введите email"
  const EmailMalformed := "Введите корректный email"
  const PasswordMissing := "Введите пароль"
  const PasswordShort := "Пароль должен быть не менее 8 символов"
  const PasswordWeak := "Слишком слабый пароль"
  const ConfirmMismatch := "Пароли не совпадают"
  const TermsRequired := "Необходимо принять условия"

  datatype RegisterForm = RegisterForm(username: string, email: string, password: string,
                                       confirmPassword: string, agreeTerms: bool)

  const EmptyForm := RegisterForm("", "", "", "", false)

  /** The first failing username check: blank, shorter than three
      characters (untrimmed), characters outside the class. */
  function UsernameError(u: string): Option<string> {
    if Trim(u) == "" then Some(UsernameMissing)
    else if |u| < 3 then Some(UsernameShort)
    else if !Match(UsernamePattern, u) then Some(UsernameChars)
    else None
  }

  function EmailError(e: string): Option<string> {
    if Trim(e) == "" then Some(EmailMissing)
    else if !Match(EmailPattern, e) then Some(EmailMalformed)
    else None
  }

  /** The password checks use the score the meter shows. */
  function PasswordError(pw: string, score: nat): Option<string> {
    if pw == "" then Some(PasswordMissing)
    else if |pw| < 8 then Some(PasswordShort)
    else if score <= 2 then Some(PasswordWeak)
    else None
  }

  /** `errors[key] = message` when there is a message. */
  function Add(errors: map<string, string>, key: string, message: Option<string>): (r: map<string, string>)
    ensures r.Keys == if message.Some? then errors.Keys + {key} else errors.Keys
  {
    if message.Some? then errors[key := message.value] else errors
  }

  function ConfirmError(f: RegisterForm): Option<string> {
    if f.password != f.confirmPassword then Some(ConfirmMismatch) else None
  }

  function TermsError(f: RegisterForm): Option<string> {
    if !f.agreeTerms then Some(TermsRequired) else None
  }

  /** The errors validateForm collects, by field name. */
  function FormErrors(f: RegisterForm, score: nat): map<string, string> {
    var e1 := Add(map[], "username", UsernameError(f.username));
    var e2 := Add(e1, "email", EmailError(f.email));
    var e3 := Add(e2, "password", PasswordError(f.password, score));
    var e4 := Add(e3, "confirmPassword", ConfirmError(f));
    Add(e4, "agreeTerms", TermsError(f))
  }

  /** validateForm: fills the errors field by field; the form is valid when
      none was recorded. */
  method ValidateForm(f: RegisterForm, strength: Strength) returns (valid: bool, errors: map<string, string>)
    ensures errors == FormErrors(f, strength.score)
    ensures valid <==> errors == map[]
  {
    errors := map[];
    var u := UsernameError(f.username);
    if u.Some? {
      errors := errors["username" := u.value];
    }
    ghost var e1 := errors;
    assert e1 == Add(map[], "username", u);
    var e := EmailError(f.email);
    if e.Some? {
      errors := errors["email" := e.value];
    }
    ghost var e2 := errors;
    assert e2 == Add(e1, "email", e);
    var p := PasswordError(f.password, strength.score);
    if p.Some? {
      errors := errors["password" := p.value];
    }
    ghost var e3 := errors;
    assert e3 == Add(e2, "password", p);
    if f.password != f.confirmPassword {
      errors := errors["confirmPassword" := ConfirmMismatch];
    }
    ghost var e4 := errors;
    assert e4 == Add(e3, "confirmPassword", ConfirmError(f));
    if !f.agreeTerms {
      errors := errors["agreeTerms" := TermsRequired];
    }
    assert errors == Add(e4, "agreeTerms", TermsError(f));
    valid := errors == map[];
  }

  predicate WordChar(c: char) {
    IsLower(c) || IsUpper(c) || IsDigit(c) || c == '_'
  }

  /** The username pattern accepts exactly the non-empty runs of letters,
      digits and underscores. */
  lemma UsernamePatternMeaning(u: string)
    ensures Match(UsernamePattern, u) <==> |u| >= 1 && forall i :: 0 <= i < |u| ==> WordChar(u[i])
  {
    assert UsernamePattern == [Plus(WordClass)] + [];
    if Match(UsernamePattern, u) {
      PlusElim(WordClass, [], u);
      var n :| n >= 1 && LeadIn(u, WordClass, n) && Match([], u[n..]);
      assert n == |u|;
    } else if |u| >= 1 && forall i :: 0 <= i < |u| ==> WordChar(u[i]) {
      assert LeadIn(u, WordClass, |u|);
      PlusIntro(WordClass, [], u, |u|);
      assert false;
    }
  }

  /** A character the email pattern's part class admits. */
  predicate Plain(c: char) {
    !IsSpace(c) && c != '@'
  }

  /** An '@' at i and a '.' at j split `e` into three non-empty parts, and
      no other character is a space or an '@'. */
  predicate EmailSplit(e: string, i: int, j: int) {
    && 0 < i && i + 1 < j && j + 1 < |e|
    && e[i] == '@' && e[j] == '.'
    && forall m :: 0 <= m < |e| && m != i ==> Plain(e[m])
  }

  const AfterAt := [Plus(PlainClass), One(Literal('.')), Plus(PlainClass)]
  const AfterDot := [Plus(PlainClass)]

  predicate AllPlain(s: string) {
    forall m :: 0 <= m < |s| ==> Plain(s[m])
  }

  lemma PlainLeadIn(s: string, n: int)
    requires LeadIn(s, PlainClass, n)
    ensures AllPlain(s[..n])
  {
    forall m | 0 <= m < n ensures Plain(s[..n][m]) {
      assert InClass(s[m], PlainClass);
    }
  }

  /** What follows the '.': a non-empty plain run. */
  lemma AfterDotElim(w: string)
    requires Match(AfterDot, w)
    ensures |w| >= 1 && AllPlain(w)
  {
    assert AfterDot == [Plus(PlainClass)] + [];
    PlusElim(PlainClass, [], w);
    var n :| n >= 1 && LeadIn(w, PlainClass, n) && Match([], w[n..]);
    PlainLeadIn(w, n);
    assert w[..n] == w;
  }

  /** What follows the '@', token by token: a plain run, a '.', and what
      follows the '.'. */
  lemma AfterAtSplit(t: string)
    requires Match(AfterAt, t)
    ensures exists d :: 1 <= d < |t| && LeadIn(t, PlainClass, d) && t[d] == '.' && Match(AfterDot, t[d + 1..])
  {
    assert AfterAt == [Plus(PlainClass)] + ([One(Literal('.'))] + AfterDot);
    PlusElim(PlainClass, [One(Literal('.'))] + AfterDot, t);
    var d :| d >= 1 && LeadIn(t, PlainClass, d) && Match([One(Literal('.'))] + AfterDot, t[d..]);
    OneStep(Literal('.'), AfterDot, t[d..]);
    assert t[d..][1..] == t[d + 1..];
  }

  /** Plain on both sides of a plain character is plain throughout. */
  lemma PlainJoin(t: string, d: int)
    requires 0 <= d < |t| && AllPlain(t[..d]) && Plain(t[d]) && AllPlain(t[d + 1..])
    ensures AllPlain(t)
  {
    forall m | 0 <= m < |t| ensures Plain(t[m]) {
      if m < d {
        assert t[m] == t[..d][m];
      } else if m > d {
        assert t[m] == t[d + 1..][m - d - 1];
      }
    }
  }

  /** What follows the '@': a plain string with a '.' neither first nor last. */
  lemma AfterAtElim(t: string)
    requires Match(AfterAt, t)
    ensures exists d :: 1 <= d && d + 1 < |t| && t[d] == '.' && AllPlain(t)
  {
    AfterAtSplit(t);
    var d :| 1 <= d < |t| && LeadIn(t, PlainClass, d) && t[d] == '.' && Match(AfterDot, t[d + 1..]);
    AfterDotElim(t[d + 1..]);
    PlainLeadIn(t, d);
    PlainJoin(t, d);
  }

  /** The email pattern, token by token: a plain run, an '@', and what
      follows the '@'. */
  lemma EmailPatternSplit(e: string)
    requires Match(EmailPattern, e)
    ensures exists i :: 1 <= i < |e| && LeadIn(e, PlainClass, i) && e[i] == '@' && Match(AfterAt, e[i + 1..])
  {
    assert EmailPattern == [Plus(PlainClass)] + ([One(Literal('@'))] + AfterAt);
    PlusElim(PlainClass, [One(Literal('@'))] + AfterAt, e);
    var i :| i >= 1 && LeadIn(e, PlainClass, i) && Match([One(Literal('@'))] + AfterAt, e[i..]);
    OneStep(Literal('@'), AfterAt, e[i..]);
    assert e[i..][1..] == e[i + 1..];
  }

  lemma EmailPatternElim(e: string)
    requires Match(EmailPattern, e)
    ensures exists i, j :: EmailSplit(e, i, j)
  {
    EmailPatternSplit(e);
    var i :| 1 <= i < |e| && LeadIn(e, PlainClass, i) && e[i] == '@' && Match(AfterAt, e[i + 1..]);
    var t := e[i + 1..];
    AfterAtElim(t);
    var d :| 1 <= d && d + 1 < |t| && t[d] == '.' && AllPlain(t);
    PlainLeadIn(e, i);
    forall m | 0 <= m < |e| && m != i ensures Plain(e[m]) {
      if m < i {
        assert e[m] == e[..i][m];
      } else {
        assert e[m] == t[m - i - 1];
      }
    }
    assert e[i + 1 + d] == t[d];
    assert EmailSplit(e, i, i + 1 + d);
  }

  lemma EmailPatternIntro(e: string, i: int, j: int)
    requires EmailSplit(e, i, j)
    ensures Match(EmailPattern, e)
  {
    var w := e[j + 1..];
    assert LeadIn(w, PlainClass, |w|) by {
      forall m | 0 <= m < |w| ensures InClass(w[m], PlainClass) {
        assert w[m] == e[j + 1 + m];
      }
    }
    assert w[|w|..] == [];
    PlusIntro(PlainClass, [], w, |w|);
    assert AfterDot == [Plus(PlainClass)] + [];
    var v := e[j..];
    assert v[1..] == w;
    OneStep(Literal('.'), AfterDot, v);
    var t := e[i + 1..];
    assert LeadIn(t, PlainClass, j - i - 1) by {
      forall m | 0 <= m < j - i - 1 ensures InClass(t[m], PlainClass) {
        assert t[m] == e[i + 1 + m];
      }
    }
    assert t[j - i - 1..] == v;
    PlusIntro(PlainClass, [One(Literal('.'))] + AfterDot, t, j - i - 1);
    assert AfterAt == [Plus(PlainClass)] + ([One(Literal('.'))] + AfterDot);
    var r := e[i..];
    assert r[1..] == t;
    OneStep(Literal('@'), AfterAt, r);
    assert LeadIn(e, PlainClass, i);
    PlusIntro(PlainClass, [One(Literal('@'))] + AfterAt, e, i);
    assert EmailPattern == [Plus(PlainClass)] + ([One(Literal('@'))] + AfterAt);
  }

  /** The email pattern accepts exactly the strings without white space
      that have one '@', not first, followed later by a '.' that is neither
      right after the '@' nor last. */
  lemma EmailPatternMeaning(e: string)
    ensures Match(EmailPattern, e) <==> exists i, j :: EmailSplit(e, i, j)
  {
    if Match(EmailPattern, e) {
      EmailPatternElim(e);
    } else if exists i, j :: EmailSplit(e, i, j) {
      var i, j :| EmailSplit(e, i, j);
      EmailPatternIntro(e, i, j);
    }
  }

  /** A pattern-matching string is never blank, so the pattern alone decides. */
  lemma NotBlank(s: string, k: int)
    requires 0 <= k < |s| && !IsSpace(s[k])
    ensures Trim(s) != ""
  {
    TrimEmptyIff(s);
  }

  /** The username passes exactly when it is at least three word characters. */
  lemma UsernameOkIff(u: string)
    ensures UsernameError(u).None? <==> |u| >= 3 && forall i :: 0 <= i < |u| ==> WordChar(u[i])
  {
    UsernamePatternMeaning(u);
    if |u| >= 3 && forall i :: 0 <= i < |u| ==> WordChar(u[i]) {
      NotBlank(u, 0);
    }
  }

  /** The email passes exactly when it has the local@domain.tld shape. */
  lemma EmailOkIff(e: string)
    ensures EmailError(e).None? <==> exists i, j :: EmailSplit(e, i, j)
  {
    EmailPatternMeaning(e);
    if exists i, j :: EmailSplit(e, i, j) {
      var i, j :| EmailSplit(e, i, j);
      NotBlank(e, i);
    }
  }

  /** No error is recorded exactly when every check passes. */
  lemma NoErrorsIff(f: RegisterForm, score: nat)
    ensures FormErrors(f, score) == map[] <==>
              && UsernameError(f.username).None? && EmailError(f.email).None?
              && PasswordError(f.password, score).None? && ConfirmError(f).None? && TermsError(f).None?
  {
    var errs := FormErrors(f, score);
    if UsernameError(f.username).Some? { assert "username" in errs; }
    if EmailError(f.email).Some? { assert "email" in errs; }
    if PasswordError(f.password, score).Some? { assert "password" in errs; }
    if ConfirmError(f).Some? { assert "confirmPassword" in errs; }
    if TermsError(f).Some? { assert "agreeTerms" in errs; }
  }

  /** The form is valid exactly when the username is at least three word
      characters, the email is local@domain.tld without spaces, the
      password has at least eight characters and scores at least 3, the
      confirmation repeats it and the terms are accepted. */
  lemma FormValidIff(f: RegisterForm, score: nat)
    ensures FormErrors(f, score) == map[] <==>
              && |f.username| >= 3 && (forall i :: 0 <= i < |f.username| ==> WordChar(f.username[i]))
              && (exists i, j :: EmailSplit(f.email, i, j))
              && |f.password| >= 8 && score >= 3
              && f.password == f.confirmPassword
              && f.agreeTerms
  {
    NoErrorsIff(f, score);
    UsernameOkIff(f.username);
    EmailOkIff(f.email);
  }

  /** The username checks run in order: a blank name, then a name of one or
      two characters, then a name with other characters; the length counts
      surrounding spaces, so " ab" fails only the character check. */
  lemma UsernameErrorOrder()
    ensures UsernameError("  ") == Some(UsernameMissing)
    ensures UsernameError("a") == Some(UsernameShort)
    ensures UsernameError(" ab") == Some(UsernameChars)
    ensures UsernameError("a_1") == None
  {
    var blank := "  ";
    TrimEmptyIff(blank);
    var one := "a";
    NotBlank(one, 0);
    var spaced := " ab";
    NotBlank(spaced, 1);
    UsernamePatternMeaning(spaced);
    assert !WordChar(spaced[0]);
    var good := "a_1";
    NotBlank(good, 0);
    UsernamePatternMeaning(good);
    assert WordChar(good[0]) && WordChar(good[1]) && WordChar(good[2]);
  }

  /** A password under eight characters, like "123", is never accepted. */
  lemma ShortPasswordRejected(f: RegisterForm)
    requires |f.password| < 8
    ensures "password" in FormErrors(f, PasswordStrength(f.password).score)
  {
  }

  // ---------------------------------------------------------------------
  // Submitting

  const Registered := "Регистрация успешна! Перенаправляем на страницу входа..."
  const Taken := "Имя пользователя уже занято"
  const InUse := "Email уже используется"
  const SubmitFallback := "Ошибка регистрации. Попробуйте еще раз."
  const AlreadyExists := "уже существует"

  /** The errors shown for a failed registration. */
  function SubmitErrors(message: string): (r: map<string, string>)
    ensures Contains(message, AlreadyExists) ==> r == map["username" := Taken, "email" := InUse]
    ensures !Contains(message, AlreadyExists) ==> r.Keys == {"submit"} && r["submit"] != ""
    ensures !Contains(message, AlreadyExists) && message != "" ==> r["submit"] == message
  {
    if Contains(message, AlreadyExists) then map["username" := Taken, "email" := InUse]
    else map["submit" := if message != "" then message else SubmitFallback]
  }

  /** The field an input edits. */
  datatype Field = Username | Email | Password | ConfirmPassword | AgreeTerms

  function Key(field: Field): string {
    match field
    case Username => "username"
    case Email => "email"
    case Password => "password"
    case ConfirmPassword => "confirmPassword"
    case AgreeTerms => "agreeTerms"
  }

  /** `if (errors[key]) errors[key] = ''` */
  function Cleared(errors: map<string, string>, key: string): map<string, string> {
    if key in errors && errors[key] != "" then errors[key := ""] else errors
  }

  /** Editing a field blanks its error and the submit error, and leaves
      every other message and every key as it was. */
  lemma ClearedMeaning(errors: map<string, string>, field: Field)
    ensures var r := Cleared(Cleared(errors, Key(field)), "submit");
            && r.Keys == errors.Keys
            && forall k :: k in r ==> r[k] == if k == Key(field) || k == "submit" then "" else errors[k]
  {
  }

  /** `formData[name]` for a text input. */
  function TextOf(f: RegisterForm, field: Field): string
    requires field != AgreeTerms
  {
    match field
    case Username => f.username
    case Email => f.email
    case Password => f.password
    case ConfirmPassword => f.confirmPassword
  }

  /** The form with one field set: the checkbox sets the terms flag and
      nothing else; a text input sets its own value to the text, and every
      other text value and the flag stay as they were. */
  function Edited(f: RegisterForm, field: Field, text: string, checked: bool): (r: RegisterForm)
    ensures field == AgreeTerms ==> r == f.(agreeTerms := checked)
    ensures field != AgreeTerms ==> TextOf(r, field) == text && r.agreeTerms == f.agreeTerms
    ensures forall g :: g != AgreeTerms && g != field ==> TextOf(r, g) == TextOf(f, g)
  {
    match field
    case Username => f.(username := text)
    case Email => f.(email := text)
    case Password => f.(password := text)
    case ConfirmPassword => f.(confirmPassword := text)
    case AgreeTerms => f.(agreeTerms := checked)
  }

  class RegisterPage {
    var form: RegisterForm
    var strength: Strength
    var errors: map<string, string>
    var success: string
    var loading: bool

    /** The meter shows the strength of the current password. */
    predicate Valid()
      reads this
    {
      strength == PasswordStrength(form.password)
    }

    constructor ()
      ensures Valid()
      ensures form == EmptyForm && errors == map[] && success == "" && !loading
    {
      form := EmptyForm;
      strength := Strength(0, "", []);
      errors := map[];
      success := "";
      loading := false;
    }

    /** handleChange, followed by the strength effect when the password
        changed: the field takes the new value, and its error and the
        submit error are blanked. */
    method Change(field: Field, text: string, checked: bool)
      requires Valid()
      modifies this
      ensures Valid()
      ensures form == Edited(old(form), field, text, checked)
      ensures errors == Cleared(Cleared(old(errors), Key(field)), "submit")
      ensures success == old(success) && loading == old(loading)
    {
      form := Edited(form, field, text, checked);
      if field == Password {
        if text != "" {
          strength := CheckPasswordStrength(text);
        } else {
          strength := Strength(0, "", []);
        }
      }
      errors := Cleared(errors, Key(field));
      errors := Cleared(errors, "submit");
    }

    /** handleSubmit: an invalid form shows its errors and never calls
        register; otherwise register runs with `reply` and its outcome
        becomes the success text or the error messages. */
    method Submit(reply: Session.Reply<Session.SignUp>) returns (called: bool)
      requires Valid()
      modifies this
      ensures Valid() && form == old(form) && strength == old(strength)
      ensures called <==> FormErrors(form, strength.score) == map[]
      ensures !called ==> errors == FormErrors(form, strength.score) && success == "" && loading == old(loading)
      ensures called ==> !loading
      ensures called && Session.RegisterOutcome(reply).Ok? ==> success == Registered && errors == map[]
      ensures called && Session.RegisterOutcome(reply).Err? ==>
                success == "" && errors == SubmitErrors(Session.RegisterOutcome(reply).message)
    {
      errors := map[];
      success := "";
      var valid, found := ValidateForm(form, strength);
      errors := found;
      if !valid {
        return false;
      }
      loading := true;
      match Session.RegisterOutcome(reply) {
        case Ok(_) => success := Registered;
        case Err(message) => errors := SubmitErrors(message);
      }
      loading := false;
      return true;
    }
  }

  /** A refusal that names an existing account marks both the username and
      the email field; any other refusal shows its own message, which is
      never empty, under the form. */
  lemma RefusalMessages(reply: Session.Reply<Session.SignUp>)
    requires Session.RegisterOutcome(reply).Err?
    ensures var m := Session.RegisterOutcome(reply).message;
            && (Contains(m, AlreadyExists) ==> SubmitErrors(m).Keys == {"username", "email"})
            && (!Contains(m, AlreadyExists) ==> SubmitErrors(m) == map["submit" := m])
  {
  }
}
